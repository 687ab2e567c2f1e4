/**
 Who may release the native process. The executor (the keeper's process) admits
 client requests and retires when idle; a guardian watches the keeper and
 releases the process if the keeper dies. Native serves one inbox in arrival
 order and answers each connection in order. A step is one critical section,
 one transmission, one delivery or one native action.
 */
module Lifetime {
  import opened Common

  const MAX_PENDING := 32

  datatype Owner = Executor | Guardian

  datatype Request =
    | StartThread(slot: nat)
    | StartTurn(thread: nat, slot: nat)
    | ReadThread(thread: nat, tag: nat, owner: Owner)
    | ListTurns(thread: nat, tag: nat)
    | ListLoaded(tag: nat)

  datatype Kind = IdleKind | NotLoadedKind | ActiveKind | SystemErrorKind

  /** What native sends back on one connection, in order. */
  datatype Item =
    | Created(slot: nat, thread: nat)
    | TurnReply(slot: nat, thread: nat, turn: nat)
    | Started(thread: nat, turn: nat)
    | Completed(thread: nat, turn: nat)
    | Closed(thread: nat)
    | Status(tag: nat, thread: nat, kind: Kind)
    | LatestTurn(tag: nat, terminal: bool)
    | LoadedList(tag: nat, threads: set<nat>)

  /** A thread is its turns, oldest first; true marks a terminal one. */
  datatype Native = Native(alive: bool, inbox: seq<Request>, threads: map<nat, seq<bool>>, loaded: set<nat>,
                           toExecutor: seq<Item>, toGuardian: seq<Item>)

  /** A request goroutine between admission and its decrement of `pending`. */
  datatype Slot =
    | Admitted
    | Cleared                   // thread/start past its ownership check
    | StartSent
    | Owning                    // thread/start answered and its task owned, `opening` not reset yet
    | TurnSent
    | Answered                  // turn/start answered, `active` not set yet
    | Finished

  /** The executor's record of a turn. */
  datatype TurnRef = TurnRef(thread: nat, index: nat, terminal: bool)

  datatype Evidence =
    | NoTask                    // no task was ever owned
    | IdleStatus                // thread/read answered idle or notLoaded
    | LatestTerminal            // systemError, and thread/turns/list showed the latest turn terminal
    | CachedTerminal(turn: TurnRef) // systemError, and the turn copied before the read was terminal
    | NoneLoaded                // guardian: nothing loaded
    | TerminalSeen              // guardian: systemError after a completion notification

  /** Where Retire is. */
  datatype Phase =
    | Resting
    | Fenced
    | Asking(tag: nat, thread: nat, cached: Option<TurnRef>)
    | Listing(tag: nat, thread: nat)
    | Verified(task: Option<nat>, evidence: Evidence)

  datatype Keeper = Keeper(alive: bool, id: Option<nat>, turn: Option<TurnRef>, slots: map<nat, Slot>,
                            active: bool, settled: bool, retiring: bool, opening: bool, phase: Phase,
                            owned: set<nat>)

  datatype Watch = Watching | ListingLoaded(tag: nat) | Reading(tag: nat, thread: nat) | Decided(task: Option<nat>, proof: Evidence)

  /** `listed` says the task was found in the loaded list after the keeper died. */
  datatype Guard = Guard(task: Option<nat>, terminal: bool, listed: bool, watch: Watch)

  datatype State = State(native: Native, exec: Keeper, guard: Guard, nextTag: nat, released: bool)

  predicate Running(n: Native, t: nat) {
    t in n.threads && n.threads[t] != [] && !n.threads[t][|n.threads[t]| - 1]
  }

  /** A fresh native process, with an admitted dormant task or none. */
  predicate Init(s: State) {
    && s.native.alive && s.native.inbox == [] && s.native.toExecutor == [] && s.native.toGuardian == []
    && (forall t :: t in s.native.threads ==> !Running(s.native, t))
    && s.exec.alive && s.exec.turn.None? && s.exec.slots == map[] && !s.exec.active && !s.exec.retiring
    && s.exec.phase == Resting && s.exec.owned == (if s.exec.id.Some? then {s.exec.id.value} else {})
    && s.guard == Guard(None, false, false, Watching) && !s.released
  }

  // ----- native -----

  predicate Honest(n: Native, t: nat, kind: Kind) {
    kind == IdleKind || kind == NotLoadedKind ==> !Running(n, t)
  }

  /** Serves the oldest request; `name` is the id native picks for a new thread, `kind` is the status native reports. */
  function Serve(n: Native, name: nat, kind: Kind): Native
    requires n.inbox != []
  {
    var rest := n.(inbox := n.inbox[1..]);
    match n.inbox[0]
    case StartThread(slot) =>
      if name in n.threads then rest
      else rest.(threads := n.threads[name := []], loaded := n.loaded + {name}, toExecutor := n.toExecutor + [Created(slot, name)])
    case StartTurn(t, slot) =>
      if t !in n.threads || Running(n, t) then rest
      else
        var k := |n.threads[t]|;
        rest.(threads := n.threads[t := n.threads[t] + [false]], loaded := n.loaded + {t},
              toExecutor := n.toExecutor + [Started(t, k), TurnReply(slot, t, k)],
              toGuardian := n.toGuardian + [Started(t, k)])
    case ReadThread(t, tag, owner) =>
      if t !in n.threads || !Honest(n, t, kind) then rest
      else if owner == Executor then rest.(toExecutor := n.toExecutor + [Status(tag, t, kind)])
      else rest.(toGuardian := n.toGuardian + [Status(tag, t, kind)])
    case ListTurns(t, tag) =>
      if t !in n.threads then rest
      else rest.(toExecutor := n.toExecutor + [LatestTurn(tag, n.threads[t] != [] && !Running(n, t))])
    case ListLoaded(tag) => rest.(toGuardian := n.toGuardian + [LoadedList(tag, n.loaded)])
  }

  function Finish(n: Native, t: nat): Native
    requires Running(n, t)
  {
    var k := |n.threads[t]| - 1;
    n.(threads := n.threads[t := n.threads[t][k := true]],
       toExecutor := n.toExecutor + [Completed(t, k)], toGuardian := n.toGuardian + [Completed(t, k)])
  }

  function Closes(n: Native, t: nat): Native {
    n.(toExecutor := n.toExecutor + [Closed(t)])
  }

  // ----- the executor -----

  /** handleNotification, and the replies request() and verifyIdle() wait for */
  function Receive(e: Keeper, item: Item): Keeper {
    match item
    case Created(slot, t) =>
      if slot in e.slots && e.slots[slot] == StartSent
      then e.(id := Some(t), owned := e.owned + {t}, slots := e.slots[slot := Owning]) else e
    case TurnReply(slot, t, k) =>
      if slot in e.slots && e.slots[slot] == TurnSent
      then e.(slots := e.slots[slot := Answered],
              turn := if e.turn.None? || e.turn.value.thread != t || e.turn.value.index != k then Some(TurnRef(t, k, false)) else e.turn)
      else e
    case Started(t, k) => if e.id == Some(t) then e.(active := true, settled := false, turn := Some(TurnRef(t, k, false))) else e
    case Completed(t, k) => if e.id == Some(t) then e.(active := false, settled := true, turn := Some(TurnRef(t, k, true))) else e
    case Closed(t) => if e.id == Some(t) then e.(active := false, settled := true) else e
    case Status(tag, t, kind) =>
      if !e.phase.Asking? || e.phase.tag != tag || e.phase.thread != t then e
      else if kind == IdleKind || kind == NotLoadedKind then e.(phase := Verified(Some(t), IdleStatus))
      else if kind == SystemErrorKind then
        if e.phase.cached.Some? && e.phase.cached.value.terminal
        then e.(phase := Verified(Some(t), CachedTerminal(e.phase.cached.value)))
        else e.(phase := Listing(tag, t))
      else e.(phase := Resting, retiring := false)
    case LatestTurn(tag, terminal) =>
      if !e.phase.Listing? || e.phase.tag != tag then e
      else if terminal then e.(phase := Verified(Some(e.phase.thread), LatestTerminal))
      else e.(phase := Resting, retiring := false)
    case LoadedList(_, _) => e
  }

  // ----- the guardian -----

  function Notice(g: Guard, item: Item): Guard {
    match item
    case Started(t, _) => if g.task == Some(t) then g.(terminal := false) else g
    case Completed(t, _) => if g.task == Some(t) then g.(terminal := true) else g
    case LoadedList(tag, threads) =>
      if !g.watch.ListingLoaded? || g.watch.tag != tag then g
      else if threads == {} then g.(watch := Decided(None, NoneLoaded))
      else if exists t :: t in threads && threads == {t}
      then var t :| t in threads && threads == {t}; g.(task := Some(t), terminal := false, listed := true, watch := Watching)
      else g.(watch := Watching)
    case Status(tag, t, kind) =>
      if !g.watch.Reading? || g.watch.tag != tag || g.watch.thread != t then g
      else if kind == IdleKind || kind == NotLoadedKind then g.(watch := Decided(Some(t), IdleStatus))
      else if kind == SystemErrorKind && g.terminal then g.(watch := Decided(Some(t), TerminalSeen))
      else g.(watch := Watching)
    case _ => g
  }

  // ----- steps -----

  datatype Action =
    | NativeServes(name: nat, kind: Kind)
    | TurnEnds(thread: nat)
    | ThreadCloses(thread: nat)         // thread/closed or thread/archived
    | Unload(thread: nat)
    | Admit(slot: nat)
    | CheckStart(slot: nat)
    | SendStart(slot: nat)
    | SendTurn(slot: nat)
    | Reopen(slot: nat)                 // thread/start returns: opening is reset
    | MarkActive(slot: nat)             // turn/start was answered: active is set unless the turn already settled
    | Settle(slot: nat)                 // refused, answered, failed or timed out: pending is decremented
    | ExecutorReceives
    | Fence
    | CopyState                         // verifyIdle reads id and turn
    | AskTurns
    | GiveUp                            // verifyIdle or the release failed: retryRetirement
    | Disconnect
    | Release
    | KeeperDies
    | GuardBinds(thread: nat)
    | GuardAsks
    | GuardReceives
    | GuardReconnects
    | GuardReleases

  predicate Enabled(s: State, a: Action) {
    var e := s.exec;
    s.native.alive &&
    match a
    case NativeServes(_, _) => s.native.inbox != []
    case TurnEnds(t) => Running(s.native, t)
    case ThreadCloses(t) => t in s.native.threads
    case Unload(t) => !Running(s.native, t)
    case Admit(slot) => e.alive && !e.retiring && |e.slots| < MAX_PENDING && slot !in e.slots
    case CheckStart(slot) => e.alive && slot in e.slots && e.slots[slot] == Admitted && e.id.None? && !e.opening
    case SendStart(slot) => e.alive && slot in e.slots && e.slots[slot] == Cleared
    case SendTurn(slot) => e.alive && slot in e.slots && e.slots[slot] == Admitted && e.id.Some?
    case Reopen(slot) => e.alive && slot in e.slots && (e.slots[slot].StartSent? || e.slots[slot].Owning?)
    case MarkActive(slot) => e.alive && slot in e.slots && e.slots[slot].Answered?
    case Settle(slot) => e.alive && slot in e.slots && (e.slots[slot].Admitted? || e.slots[slot].TurnSent? || e.slots[slot].Finished?)
    case ExecutorReceives => e.alive && s.native.toExecutor != []
    case Fence => e.alive && !e.retiring && e.slots == map[] && !e.active
    case CopyState => e.alive && e.phase.Fenced?
    case AskTurns => e.alive && e.phase.Listing?
    case GiveUp => e.alive && !e.phase.Resting?
    case Disconnect => e.alive
    case Release => e.alive && e.phase.Verified?
    case KeeperDies => true
    case GuardBinds(t) => s.guard.task.None? && s.guard.watch == Watching && t in e.owned    // the recorded taskId
    case GuardAsks => !e.alive && s.guard.watch == Watching
    case GuardReceives => s.native.toGuardian != []
    case GuardReconnects => true
    case GuardReleases => s.guard.watch.Decided?
  }

  function Post(n: Native, r: Request): Native {
    n.(inbox := n.inbox + [r])
  }

  function Step(s: State, a: Action): State
    requires Enabled(s, a)
  {
    var n, e, g := s.native, s.exec, s.guard;
    match a
    case NativeServes(name, kind) => s.(native := Serve(n, name, kind))
    case TurnEnds(t) => s.(native := Finish(n, t))
    case ThreadCloses(t) => s.(native := Closes(n, t))
    case Unload(t) => s.(native := n.(loaded := n.loaded - {t}))
    case Admit(slot) => s.(exec := e.(slots := e.slots[slot := Admitted]))
    case CheckStart(slot) => s.(exec := e.(slots := e.slots[slot := Cleared]))
    case SendStart(slot) =>
      s.(exec := e.(slots := e.slots[slot := StartSent], opening := true), native := Post(n, StartThread(slot)))
    case SendTurn(slot) =>
      s.(exec := e.(slots := e.slots[slot := TurnSent]), native := Post(n, StartTurn(e.id.value, slot)))
    case Reopen(slot) => s.(exec := e.(slots := e.slots[slot := Finished], opening := false))
    case MarkActive(slot) => s.(exec := e.(slots := e.slots[slot := Finished], active := e.active || !e.settled))
    case Settle(slot) => s.(exec := e.(slots := e.slots - {slot}))
    case ExecutorReceives =>
      s.(native := n.(toExecutor := n.toExecutor[1..]), exec := Receive(e, n.toExecutor[0]))
    case Fence => s.(exec := e.(retiring := true, phase := Fenced))
    case CopyState =>
      if e.id.None? then s.(exec := e.(phase := Verified(None, NoTask)))
      else s.(exec := e.(phase := Asking(s.nextTag, e.id.value, e.turn)),
              native := Post(n, ReadThread(e.id.value, s.nextTag, Executor)), nextTag := s.nextTag + 1)
    case AskTurns => s.(native := Post(n, ListTurns(e.phase.thread, e.phase.tag)))
    case GiveUp => s.(exec := e.(phase := Resting, retiring := false))
    case Disconnect => s.(exec := e.(retiring := true))
    case Release => s.(native := n.(alive := false), released := true)
    case KeeperDies => s.(exec := e.(alive := false, slots := map[], phase := Resting))
    case GuardBinds(t) => s.(guard := g.(task := Some(t), terminal := false))
    case GuardAsks =>
      if g.task.None? then
        s.(guard := g.(watch := ListingLoaded(s.nextTag)), native := Post(n, ListLoaded(s.nextTag)), nextTag := s.nextTag + 1)
      else
        s.(guard := g.(watch := Reading(s.nextTag, g.task.value)),
           native := Post(n, ReadThread(g.task.value, s.nextTag, Guardian)), nextTag := s.nextTag + 1)
    case GuardReceives =>
      s.(native := n.(toGuardian := n.toGuardian[1..]), guard := Notice(g, n.toGuardian[0]))
    case GuardReconnects => s.(native := n.(toGuardian := []), guard := g.(watch := Watching))
    case GuardReleases => s.(native := n.(alive := false), released := true)
  }

  function Next(s: State, a: Action): State {
    if Enabled(s, a) then Step(s, a) else s
  }

  function Run(s: State, actions: seq<Action>): State
    decreases |actions|
  {
    if actions == [] then s else Next(Run(s, actions[..|actions| - 1]), actions[|actions| - 1])
  }
}

/** What holds in every interleaving, and why release is safe. */
module LifetimeSafety {
  import opened Common
  import opened Lifetime

  ghost predicate Tagged(r: Request, tag: nat) {
    match r
    case ReadThread(_, g, _) => g == tag
    case ListTurns(_, g) => g == tag
    case ListLoaded(g) => g == tag
    case _ => false
  }

  ghost predicate Answers(item: Item, tag: nat) {
    match item
    case Status(g, _, _) => g == tag
    case LatestTurn(g, _) => g == tag
    case LoadedList(g, _) => g == tag
    case _ => false
  }

  ghost predicate TagBelow(r: Request, bound: nat) {
    r.ReadThread? || r.ListTurns? || r.ListLoaded? ==> r.tag < bound
  }

  ghost predicate AnswerBelow(item: Item, bound: nat) {
    item.Status? || item.LatestTurn? || item.LoadedList? ==> item.tag < bound
  }

  /** No request that starts a turn is still waiting. */
  ghost predicate NoStart(inbox: seq<Request>) {
    forall i :: 0 <= i < |inbox| ==> !inbox[i].StartTurn?
  }

  ghost predicate NoneRunning(n: Native) {
    forall t :: t in n.threads ==> !Running(n, t)
  }

  ghost predicate OnlyRunning(n: Native, task: nat) {
    forall t :: t in n.threads && Running(n, t) ==> t == task
  }

  /** Nothing that starts a turn was posted behind a question. */
  ghost predicate QuietBehind(inbox: seq<Request>, tag: nat) {
    forall p, q :: 0 <= p < q < |inbox| && Tagged(inbox[p], tag) ==> !inbox[q].StartTurn?
  }

  /** An answer of the asked kind means what it says, now and until something new is posted. */
  ghost predicate Means(n: Native, item: Item, thread: nat) {
    && NoStart(n.inbox)
    && (item.Status? && (item.kind == IdleKind || item.kind == NotLoadedKind) ==> !Running(n, item.thread))
    && (item.LatestTurn? && item.terminal ==> !Running(n, thread))
    && (item.LoadedList? ==> forall t :: t in n.threads && Running(n, t) ==> t in item.threads)
  }

  ghost predicate AllMean(n: Native, box: seq<Item>, tag: nat, thread: nat) {
    forall i :: 0 <= i < |box| && Answers(box[i], tag) ==> Means(n, box[i], thread)
  }

  /** A question asked behind every turn start, with its answers if any. */
  ghost predicate Question(n: Native, tag: nat, thread: nat) {
    && QuietBehind(n.inbox, tag)
    && (forall i :: 0 <= i < |n.inbox| && n.inbox[i].ListTurns? && n.inbox[i].tag == tag ==> n.inbox[i].thread == thread)
    && AllMean(n, n.toExecutor, tag, thread) && AllMean(n, n.toGuardian, tag, thread)
  }

  ghost predicate TurnKnown(n: Native, r: TurnRef) {
    r.terminal ==> r.thread in n.threads && r.index < |n.threads[r.thread]| && n.threads[r.thread][r.index]
  }

  ghost predicate NativeOk(n: Native, owned: set<nat>, nextTag: nat) {
    && (forall i :: 0 <= i < |n.inbox| && n.inbox[i].StartTurn? ==> n.inbox[i].thread in owned)
    && (forall t :: t in n.threads && Running(n, t) ==> t in owned && t in n.loaded)
    && (forall i :: 0 <= i < |n.inbox| ==> TagBelow(n.inbox[i], nextTag))
    && (forall i :: 0 <= i < |n.toExecutor| ==> AnswerBelow(n.toExecutor[i], nextTag))
    && (forall i :: 0 <= i < |n.toGuardian| ==> AnswerBelow(n.toGuardian[i], nextTag))
    && (forall i :: 0 <= i < |n.toExecutor| && n.toExecutor[i].Completed? ==>
          TurnKnown(n, TurnRef(n.toExecutor[i].thread, n.toExecutor[i].turn, true)))
  }

  ghost predicate PhaseOk(n: Native, e: Keeper, nextTag: nat) {
    && (!e.phase.Resting? ==> e.retiring && e.slots == map[])
    && match e.phase
       case Resting => true
       case Fenced => true
       case Asking(tag, t, cached) => e.id == Some(t) && tag < nextTag && Question(n, tag, t) && (cached.Some? ==> TurnKnown(n, cached.value))
       case Listing(tag, t) => e.id == Some(t) && tag < nextTag && Question(n, tag, t) && NoStart(n.inbox)
       case Verified(thread, evidence) =>
         match thread
         case None => evidence == NoTask && e.id.None?
         case Some(t) =>
           && e.id == Some(t) && NoStart(n.inbox)
           && (evidence == IdleStatus || evidence == LatestTerminal || evidence.CachedTerminal?)
           && (evidence == IdleStatus || evidence == LatestTerminal ==> !Running(n, t))
           && (evidence.CachedTerminal? ==> evidence.turn.terminal && TurnKnown(n, evidence.turn))
  }

  ghost predicate ExecOk(n: Native, e: Keeper) {
    && (e.id.None? ==> e.owned == {})
    && (e.id.Some? ==> e.id.value in e.owned)
    && (e.turn.Some? ==> TurnKnown(n, e.turn.value))
    && (!e.alive ==> e.slots == map[] && e.phase == Resting)
  }

  ghost predicate WatchOk(n: Native, g: Guard, keeperAlive: bool, nextTag: nat) {
    && (g.watch != Watching ==> !keeperAlive)
    && (g.listed ==> !keeperAlive && NoStart(n.inbox) && g.task.Some? && OnlyRunning(n, g.task.value))
    && match g.watch
       case Watching => true
       case ListingLoaded(tag) => tag < nextTag && Question(n, tag, 0)
       case Reading(tag, t) => g.task == Some(t) && tag < nextTag && Question(n, tag, t)
       case Decided(task, proof) =>
         && NoStart(n.inbox) && (task.Some? ==> g.task == task)
         && (task.None? ==> proof == NoneLoaded && NoneRunning(n))
         && (task.Some? ==> (proof == IdleStatus && !Running(n, task.value)) || proof == TerminalSeen)
  }

  ghost predicate Inv(s: State) {
    && NativeOk(s.native, s.exec.owned, s.nextTag)
    && ExecOk(s.native, s.exec)
    && PhaseOk(s.native, s.exec, s.nextTag)
    && WatchOk(s.native, s.guard, s.exec.alive, s.nextTag)
    && (s.guard.task.Some? && !s.guard.listed ==> s.guard.task.value in s.exec.owned)
  }

  // ----- how native and the connections move -----

  /** m is no busier than n. */
  ghost predicate Calmer(n: Native, m: Native) {
    && (NoStart(n.inbox) ==> NoStart(m.inbox))
    && (forall t :: t in m.threads && Running(m, t) ==> t in n.threads && Running(n, t))
  }

  lemma MeansStays(n: Native, m: Native, item: Item, thread: nat)
    requires Calmer(n, m) && Means(n, item, thread)
    ensures Means(m, item, thread)
  {
  }

  lemma AllMeanStays(n: Native, m: Native, box: seq<Item>, more: seq<Item>, tag: nat, thread: nat)
    requires Calmer(n, m) && AllMean(n, box, tag, thread)
    requires forall i :: 0 <= i < |more| ==> !Answers(more[i], tag)
    ensures AllMean(m, box + more, tag, thread)
    ensures box != [] ==> AllMean(m, box[1..], tag, thread)
  {
    forall i | 0 <= i < |box + more| && Answers((box + more)[i], tag) ensures Means(m, (box + more)[i], thread) {
      MeansStays(n, m, box[i], thread);
    }
    if box != [] {
      forall i | 0 <= i < |box| - 1 && Answers(box[1..][i], tag) ensures Means(m, box[1..][i], thread) {
        MeansStays(n, m, box[i + 1], thread);
      }
    }
  }

  /** Serving anything that answers no question and starts nothing, or anything before the question is answered. */
  lemma ServeKeepsQuestion(n: Native, name: nat, kind: Kind, tag: nat, thread: nat, owned: set<nat>, nextTag: nat)
    requires n.inbox != [] && NativeOk(n, owned, nextTag) && Question(n, tag, thread)
    ensures Question(Serve(n, name, kind), tag, thread)
  {
    var m := Serve(n, name, kind);
    var head := n.inbox[0];
    assert m.inbox == n.inbox[1..];
    assert QuietBehind(m.inbox, tag);
    if head.StartTurn? && head.thread in n.threads && !Running(n, head.thread) {
      assert !NoStart(n.inbox);
      StartedMeans(n, m, tag, thread);
    } else {
      ServeCalmer(n, name, kind);
      if Tagged(head, tag) {
        assert NoStart(m.inbox) by {
          forall i | 0 <= i < |m.inbox| ensures !m.inbox[i].StartTurn? { assert m.inbox[i] == n.inbox[i + 1]; }
        }
        ServeAnswers(n, name, kind, tag, thread, owned, nextTag);
      } else {
        AllMeanStays(n, m, n.toExecutor, m.toExecutor[|n.toExecutor|..], tag, thread);
        AllMeanStays(n, m, n.toGuardian, m.toGuardian[|n.toGuardian|..], tag, thread);
        assert n.toExecutor + m.toExecutor[|n.toExecutor|..] == m.toExecutor;
        assert n.toGuardian + m.toGuardian[|n.toGuardian|..] == m.toGuardian;
      }
    }
  }

  /** While a turn start waits, no question has been answered. */
  lemma UnansweredYet(n: Native, box: seq<Item>, tag: nat, thread: nat)
    requires AllMean(n, box, tag, thread) && !NoStart(n.inbox)
    ensures forall i :: 0 <= i < |box| ==> !Answers(box[i], tag)
  {
  }

  lemma StartedMeans(n: Native, m: Native, tag: nat, thread: nat)
    requires AllMean(n, n.toExecutor, tag, thread) && AllMean(n, n.toGuardian, tag, thread) && !NoStart(n.inbox)
    requires n.toExecutor <= m.toExecutor && n.toGuardian <= m.toGuardian
    requires forall i :: |n.toExecutor| <= i < |m.toExecutor| ==> !Answers(m.toExecutor[i], tag)
    requires forall i :: |n.toGuardian| <= i < |m.toGuardian| ==> !Answers(m.toGuardian[i], tag)
    ensures AllMean(m, m.toExecutor, tag, thread) && AllMean(m, m.toGuardian, tag, thread)
  {
    UnansweredYet(n, n.toExecutor, tag, thread);
    UnansweredYet(n, n.toGuardian, tag, thread);
  }

  lemma ServeCalmer(n: Native, name: nat, kind: Kind)
    requires n.inbox != []
    requires n.inbox[0].StartTurn? ==> n.inbox[0].thread !in n.threads || Running(n, n.inbox[0].thread)
    ensures Calmer(n, Serve(n, name, kind))
  {
    var m := Serve(n, name, kind);
    assert m.inbox == n.inbox[1..];
    assert forall i :: 0 <= i < |m.inbox| ==> m.inbox[i] == n.inbox[i + 1];
  }

  lemma AllMeanSnoc(m: Native, box: seq<Item>, item: Item, tag: nat, thread: nat)
    requires AllMean(m, box, tag, thread) && Means(m, item, thread)
    ensures AllMean(m, box + [item], tag, thread)
  {
  }

  lemma ServeAnswers(n: Native, name: nat, kind: Kind, tag: nat, thread: nat, owned: set<nat>, nextTag: nat)
    requires n.inbox != [] && NativeOk(n, owned, nextTag) && Question(n, tag, thread)
    requires Tagged(n.inbox[0], tag) && NoStart(n.inbox[1..]) && Calmer(n, Serve(n, name, kind))
    ensures var m := Serve(n, name, kind); AllMean(m, m.toExecutor, tag, thread) && AllMean(m, m.toGuardian, tag, thread)
  {
    var m := Serve(n, name, kind);
    AllMeanStays(n, m, n.toExecutor, [], tag, thread);
    AllMeanStays(n, m, n.toGuardian, [], tag, thread);
    assert n.toExecutor + [] == n.toExecutor && n.toGuardian + [] == n.toGuardian;
    if m.toExecutor != n.toExecutor { AllMeanSnoc(m, n.toExecutor, m.toExecutor[|n.toExecutor|], tag, thread); }
    if m.toGuardian != n.toGuardian { AllMeanSnoc(m, n.toGuardian, m.toGuardian[|n.toGuardian|], tag, thread); }
  }

  lemma PostKeepsQuestion(n: Native, r: Request, tag: nat, thread: nat)
    requires Question(n, tag, thread) && !r.StartTurn? && (r.ListTurns? && r.tag == tag ==> r.thread == thread)
    ensures Question(Post(n, r), tag, thread)
  {
    var m := Post(n, r);
    AllMeanStays(n, m, n.toExecutor, [], tag, thread);
    AllMeanStays(n, m, n.toGuardian, [], tag, thread);
    assert n.toExecutor + [] == n.toExecutor && n.toGuardian + [] == n.toGuardian;
  }

  lemma FinishKeepsQuestion(n: Native, t: nat, tag: nat, thread: nat)
    requires Running(n, t) && Question(n, tag, thread)
    ensures Question(Finish(n, t), tag, thread)
  {
    var m := Finish(n, t);
    AllMeanStays(n, m, n.toExecutor, m.toExecutor[|n.toExecutor|..], tag, thread);
    AllMeanStays(n, m, n.toGuardian, m.toGuardian[|n.toGuardian|..], tag, thread);
    assert n.toExecutor + m.toExecutor[|n.toExecutor|..] == m.toExecutor;
    assert n.toGuardian + m.toGuardian[|n.toGuardian|..] == m.toGuardian;
  }

  lemma CloseKeeps(n: Native, t: nat, owned: set<nat>, nextTag: nat)
    requires NativeOk(n, owned, nextTag)
    ensures NativeOk(Closes(n, t), owned, nextTag) && Moves(n, Closes(n, t))
    ensures forall tag, thread :: Question(n, tag, thread) ==> Question(Closes(n, t), tag, thread)
  {
    var m := Closes(n, t);
    assert forall x :: Running(m, x) == Running(n, x);
    forall tag, thread | Question(n, tag, thread) ensures Question(m, tag, thread) {
      AllMeanStays(n, m, n.toExecutor, [Closed(t)], tag, thread);
      AllMeanStays(n, m, n.toGuardian, [], tag, thread);
      assert n.toGuardian + [] == n.toGuardian;
    }
  }

  lemma TakeKeepsQuestion(n: Native, m: Native, tag: nat, thread: nat)
    requires Question(n, tag, thread) && m.inbox == n.inbox && m.threads == n.threads
    requires m.toExecutor == n.toExecutor || (n.toExecutor != [] && m.toExecutor == n.toExecutor[1..])
    requires m.toGuardian == n.toGuardian || m.toGuardian == [] || (n.toGuardian != [] && m.toGuardian == n.toGuardian[1..])
    ensures Question(m, tag, thread)
  {
    AllMeanStays(n, m, n.toExecutor, [], tag, thread);
    AllMeanStays(n, m, n.toGuardian, [], tag, thread);
    assert n.toExecutor + [] == n.toExecutor && n.toGuardian + [] == n.toGuardian;
  }

  /** A new question is asked behind everything posted so far. */
  lemma AskKeeps(n: Native, r: Request, tag: nat, thread: nat, owned: set<nat>)
    requires NativeOk(n, owned, tag) && Tagged(r, tag) && (r.ListTurns? ==> r.thread == thread)
    ensures Question(Post(n, r), tag, thread) && NativeOk(Post(n, r), owned, tag + 1)
  {
    var m := Post(n, r);
    assert forall i :: 0 <= i < |n.inbox| ==> !Tagged(n.inbox[i], tag);
    assert forall i :: 0 <= i < |n.toExecutor| ==> !Answers(n.toExecutor[i], tag);
    assert forall i :: 0 <= i < |n.toGuardian| ==> !Answers(n.toGuardian[i], tag);
  }

  /** Terminal turns stay terminal. */
  ghost predicate TurnsGrow(n: Native, m: Native) {
    && (forall t :: t in n.threads ==> t in m.threads && |n.threads[t]| <= |m.threads[t]|)
    && (forall t, k :: t in n.threads && 0 <= k < |n.threads[t]| && n.threads[t][k] ==> m.threads[t][k])
  }

  /** From n to m nothing that a waiting owner relies on is lost. */
  ghost predicate Moves(n: Native, m: Native) {
    && TurnsGrow(n, m)
    && (NoStart(n.inbox) ==> Calmer(n, m))
  }

  lemma PhaseStays(n: Native, m: Native, e: Keeper, nextTag: nat)
    requires PhaseOk(n, e, nextTag) && Moves(n, m)
    requires e.phase.Asking? || e.phase.Listing? ==> Question(m, e.phase.tag, e.phase.thread)
    ensures PhaseOk(m, e, nextTag)
  {
  }

  lemma WatchStays(n: Native, m: Native, g: Guard, alive: bool, nextTag: nat)
    requires WatchOk(n, g, alive, nextTag) && Moves(n, m)
    requires g.watch.ListingLoaded? ==> Question(m, g.watch.tag, 0)
    requires g.watch.Reading? ==> Question(m, g.watch.tag, g.watch.thread)
    ensures WatchOk(m, g, alive, nextTag)
  {
  }

  lemma ServeMoves(n: Native, name: nat, kind: Kind)
    requires n.inbox != []
    ensures Moves(n, Serve(n, name, kind))
  {
    if NoStart(n.inbox) { ServeCalmer(n, name, kind); }
  }

  lemma ServeNativeOk(n: Native, name: nat, kind: Kind, owned: set<nat>, nextTag: nat)
    requires n.inbox != [] && NativeOk(n, owned, nextTag)
    ensures NativeOk(Serve(n, name, kind), owned, nextTag)
  {
    var m := Serve(n, name, kind);
    assert m.inbox == n.inbox[1..];
    assert n.inbox[0].StartTurn? ==> n.inbox[0].thread in owned;
    ServeBoxes(n, name, kind, nextTag);
    ServeMoves(n, name, kind);
    forall i | 0 <= i < |m.toExecutor| && m.toExecutor[i].Completed?
      ensures TurnKnown(m, TurnRef(m.toExecutor[i].thread, m.toExecutor[i].turn, true))
    {
      assert m.toExecutor[i] == n.toExecutor[i];
    }
  }

  lemma ServeBoxes(n: Native, name: nat, kind: Kind, nextTag: nat)
    requires n.inbox != [] && TagBelow(n.inbox[0], nextTag)
    ensures var m := Serve(n, name, kind);
      && n.toExecutor <= m.toExecutor && n.toGuardian <= m.toGuardian
      && (forall i :: |n.toExecutor| <= i < |m.toExecutor| ==> AnswerBelow(m.toExecutor[i], nextTag) && !m.toExecutor[i].Completed?)
      && (forall i :: |n.toGuardian| <= i < |m.toGuardian| ==> AnswerBelow(m.toGuardian[i], nextTag))
  {
  }

  lemma FinishNativeOk(n: Native, t: nat, owned: set<nat>, nextTag: nat)
    requires Running(n, t) && NativeOk(n, owned, nextTag)
    ensures NativeOk(Finish(n, t), owned, nextTag) && Moves(n, Finish(n, t))
  {
    var m := Finish(n, t);
    forall i | 0 <= i < |m.toExecutor| && m.toExecutor[i].Completed?
      ensures TurnKnown(m, TurnRef(m.toExecutor[i].thread, m.toExecutor[i].turn, true))
    {
      if i < |n.toExecutor| { assert m.toExecutor[i] == n.toExecutor[i]; }
    }
  }

  // ----- each action -----

  lemma NativeStepKeeps(s: State, a: Action)
    requires Inv(s) && Enabled(s, a) && (a.NativeServes? || a.TurnEnds? || a.ThreadCloses?)
    ensures Inv(Step(s, a))
  {
    var n, e, g := s.native, s.exec, s.guard;
    var m := Step(s, a).native;
    if a.NativeServes? {
      ServeMoves(n, a.name, a.kind);
      ServeNativeOk(n, a.name, a.kind, e.owned, s.nextTag);
      if e.phase.Asking? || e.phase.Listing? { ServeKeepsQuestion(n, a.name, a.kind, e.phase.tag, e.phase.thread, e.owned, s.nextTag); }
      if g.watch.ListingLoaded? { ServeKeepsQuestion(n, a.name, a.kind, g.watch.tag, 0, e.owned, s.nextTag); }
      if g.watch.Reading? { ServeKeepsQuestion(n, a.name, a.kind, g.watch.tag, g.watch.thread, e.owned, s.nextTag); }
    } else if a.ThreadCloses? {
      CloseKeeps(n, a.thread, e.owned, s.nextTag);
    } else {
      FinishNativeOk(n, a.thread, e.owned, s.nextTag);
      if e.phase.Asking? || e.phase.Listing? { FinishKeepsQuestion(n, a.thread, e.phase.tag, e.phase.thread); }
      if g.watch.ListingLoaded? { FinishKeepsQuestion(n, a.thread, g.watch.tag, 0); }
      if g.watch.Reading? { FinishKeepsQuestion(n, a.thread, g.watch.tag, g.watch.thread); }
    }
    PhaseStays(n, m, e, s.nextTag);
    WatchStays(n, m, g, e.alive, s.nextTag);
  }

  /** Native and both owners' questions are untouched. */
  lemma TakenBoxes(s: State, m: Native)
    requires Inv(s) && m.inbox == s.native.inbox && m.threads == s.native.threads && m.loaded == s.native.loaded
    requires m.toExecutor == s.native.toExecutor || (s.native.toExecutor != [] && m.toExecutor == s.native.toExecutor[1..])
    requires m.toGuardian == s.native.toGuardian || m.toGuardian == [] || (s.native.toGuardian != [] && m.toGuardian == s.native.toGuardian[1..])
    ensures Inv(s.(native := m))
  {
    hide Question;
    var n, e, g := s.native, s.exec, s.guard;
    assert Moves(n, m);
    if e.phase.Asking? || e.phase.Listing? { TakeKeepsQuestion(n, m, e.phase.tag, e.phase.thread); }
    if g.watch.ListingLoaded? { TakeKeepsQuestion(n, m, g.watch.tag, 0); }
    if g.watch.Reading? { TakeKeepsQuestion(n, m, g.watch.tag, g.watch.thread); }
    PhaseStays(n, m, e, s.nextTag);
    WatchStays(n, m, g, e.alive, s.nextTag);
  }

  /** Steps that only change the keeper's own fields. */
  lemma KeeperStepKeeps(s: State, a: Action)
    requires Inv(s) && Enabled(s, a)
    requires a.Admit? || a.CheckStart? || a.Reopen? || a.MarkActive? || a.Settle? || a.Fence? || a.GiveUp? || a.Disconnect? || a.KeeperDies?
    ensures Inv(Step(s, a))
  {
  }

  lemma PostedStartKeeps(s: State, a: Action)
    requires Inv(s) && Enabled(s, a) && (a.SendStart? || a.SendTurn?)
    ensures Inv(Step(s, a))
  {
    assert s.exec.phase == Resting && s.guard.watch == Watching;
  }

  lemma CopyStateKeeps(s: State)
    requires Inv(s) && Enabled(s, CopyState)
    ensures Inv(Step(s, CopyState))
  {
    var n, e := s.native, s.exec;
    if e.id.Some? {
      var r := ReadThread(e.id.value, s.nextTag, Executor);
      AskKeeps(n, r, s.nextTag, e.id.value, e.owned);
    }
  }

  lemma AskTurnsKeeps(s: State)
    requires Inv(s) && Enabled(s, AskTurns)
    ensures Inv(Step(s, AskTurns))
  {
    var n, e := s.native, s.exec;
    PostKeepsQuestion(n, ListTurns(e.phase.thread, e.phase.tag), e.phase.tag, e.phase.thread);
  }

  /** What the executor may conclude from the item at the head of its connection. */
  lemma ReceiveKeepsPhase(n: Native, e: Keeper, item: Item, nextTag: nat)
    requires PhaseOk(n, e, nextTag)
    requires e.phase.Asking? || e.phase.Listing? ==> (Answers(item, e.phase.tag) ==> Means(n, item, e.phase.thread))
    ensures PhaseOk(n, Receive(e, item), nextTag)
  {
  }

  lemma ReceiveKeepsExec(n: Native, e: Keeper, item: Item)
    requires ExecOk(n, e) && e.alive
    requires item.Completed? ==> TurnKnown(n, TurnRef(item.thread, item.turn, true))
    ensures ExecOk(n, Receive(e, item)) && e.owned <= Receive(e, item).owned && Receive(e, item).alive
  {
  }

  lemma ExecutorReceivesKeeps(s: State)
    requires Inv(s) && Enabled(s, ExecutorReceives)
    ensures Inv(Step(s, ExecutorReceives))
  {
    var n := s.native;
    var m := n.(toExecutor := n.toExecutor[1..]);
    TakenBoxes(s, m);
    ReceiveKeepsPhase(m, s.exec, n.toExecutor[0], s.nextTag);
    ReceiveKeepsExec(m, s.exec, n.toExecutor[0]);
  }

  lemma NoticeKeeps(n: Native, g: Guard, item: Item, alive: bool, nextTag: nat)
    requires WatchOk(n, g, alive, nextTag)
    requires g.watch.ListingLoaded? ==> (Answers(item, g.watch.tag) ==> Means(n, item, 0))
    requires g.watch.Reading? ==> (Answers(item, g.watch.tag) ==> Means(n, item, g.watch.thread))
    ensures WatchOk(n, Notice(g, item), alive, nextTag)
  {
  }

  lemma GuardReceivesKeeps(s: State)
    requires Inv(s) && Enabled(s, GuardReceives)
    ensures Inv(Step(s, GuardReceives))
  {
    var n := s.native;
    var m := n.(toGuardian := n.toGuardian[1..]);
    TakenBoxes(s, m);
    NoticeKeeps(m, s.guard, n.toGuardian[0], s.exec.alive, s.nextTag);
  }

  lemma GuardAsksKeeps(s: State)
    requires Inv(s) && Enabled(s, GuardAsks)
    ensures Inv(Step(s, GuardAsks))
  {
    var g := s.guard;
    var r := if g.task.None? then ListLoaded(s.nextTag) else ReadThread(g.task.value, s.nextTag, Guardian);
    AskKeeps(s.native, r, s.nextTag, if g.task.None? then 0 else g.task.value, s.exec.owned);
  }

  lemma GuardReconnectsKeeps(s: State)
    requires Inv(s) && Enabled(s, GuardReconnects)
    ensures Inv(Step(s, GuardReconnects))
  {
    TakenBoxes(s, s.native.(toGuardian := []));
  }

  lemma UnloadKeeps(s: State, t: nat)
    requires Inv(s) && !Running(s.native, t)
    ensures Inv(s.(native := s.native.(loaded := s.native.loaded - {t})))
  {
    var n, e, g := s.native, s.exec, s.guard;
    var m := n.(loaded := n.loaded - {t});
    if e.phase.Asking? || e.phase.Listing? { TakeKeepsQuestion(n, m, e.phase.tag, e.phase.thread); }
    if g.watch.ListingLoaded? { TakeKeepsQuestion(n, m, g.watch.tag, 0); }
    if g.watch.Reading? { TakeKeepsQuestion(n, m, g.watch.tag, g.watch.thread); }
    PhaseStays(n, m, e, s.nextTag);
    WatchStays(n, m, g, e.alive, s.nextTag);
  }

  lemma ReleasedKeeps(s: State)
    requires Inv(s)
    ensures Inv(s.(native := s.native.(alive := false), released := true))
  {
    TakenBoxes(s, s.native.(alive := false));
  }

  lemma GuardStepKeeps(s: State, a: Action)
    requires Inv(s) && Enabled(s, a)
    requires a.GuardBinds? || a.GuardAsks? || a.GuardReceives? || a.GuardReconnects? || a.GuardReleases? || a.Release?
    ensures Inv(Step(s, a))
  {
    match a
    case GuardBinds(_) =>
    case GuardAsks => GuardAsksKeeps(s);
    case GuardReceives => GuardReceivesKeeps(s);
    case GuardReconnects => GuardReconnectsKeeps(s);
    case GuardReleases => ReleasedKeeps(s);
    case Release => ReleasedKeeps(s);
  }

  lemma ExecutorStepKeeps(s: State, a: Action)
    requires Inv(s) && Enabled(s, a)
    requires a.SendStart? || a.SendTurn? || a.ExecutorReceives? || a.CopyState? || a.AskTurns?
    ensures Inv(Step(s, a))
  {
    match a
    case SendStart(_) => PostedStartKeeps(s, a);
    case SendTurn(_) => PostedStartKeeps(s, a);
    case ExecutorReceives => ExecutorReceivesKeeps(s);
    case CopyState => CopyStateKeeps(s);
    case AskTurns => AskTurnsKeeps(s);
  }

  lemma StepKeeps(s: State, a: Action)
    requires Inv(s) && Enabled(s, a)
    ensures Inv(Step(s, a))
  {
    if a.NativeServes? || a.TurnEnds? || a.ThreadCloses? {
      NativeStepKeeps(s, a);
    } else if a.Unload? {
      UnloadKeeps(s, a.thread);
    } else if a.SendStart? || a.SendTurn? || a.ExecutorReceives? || a.CopyState? || a.AskTurns? {
      ExecutorStepKeeps(s, a);
    } else if a.Admit? || a.CheckStart? || a.Reopen? || a.MarkActive? || a.Settle? || a.Fence? || a.GiveUp? || a.Disconnect? || a.KeeperDies? {
      KeeperStepKeeps(s, a);
    } else {
      GuardStepKeeps(s, a);
    }
  }

  lemma NextKeeps(s: State, a: Action)
    requires Inv(s)
    ensures Inv(Next(s, a))
  {
    hide Step;
    hide Inv;
    if Enabled(s, a) { StepKeeps(s, a); }
  }

  lemma {:induction false} Reachable(s: State, actions: seq<Action>)
    requires Init(s)
    ensures Inv(Run(s, actions))
    decreases |actions|
  {
    if actions != [] {
      Reachable(s, actions[..|actions| - 1]);
      NextKeeps(Run(s, actions[..|actions| - 1]), actions[|actions| - 1]);
    }
  }

  // ----- release -----

  /** When the executor releases native: admission is fenced, no admitted request is outstanding and no
      turn start is still waiting. Either no task was ever owned and nothing runs, or a read made after the
      fence showed the owned task; on idle, notLoaded or a terminal latest turn the task does not run. On
      systemError with a cached terminal turn it does not run unless a newer turn was started. */
  lemma ExecutorReleasesIdleTask(s0: State, actions: seq<Action>)
    requires Init(s0) && Enabled(Run(s0, actions), Release)
    ensures var s := Run(s0, actions);
      && s.exec.retiring && s.exec.slots == map[] && s.exec.phase.task == s.exec.id
      && Proven(s.native, s.exec.id, s.exec.phase.evidence)
  {
    Reachable(s0, actions);
    var s := Run(s0, actions);
    VerifiedMeans(s.native, s.exec, s.nextTag);
  }

  /** What the evidence an executor releases on says about its task. */
  ghost predicate Proven(n: Native, task: Option<nat>, evidence: Evidence) {
    match task
    case None => evidence == NoTask && NoneRunning(n)
    case Some(t) =>
      && NoStart(n.inbox)
      && match evidence
         case IdleStatus => !Running(n, t)
         case LatestTerminal => !Running(n, t)
         case CachedTerminal(turn) => Running(n, t) && turn.thread == t ==> turn.index < |n.threads[t]| - 1
         case _ => false
  }

  lemma VerifiedMeans(n: Native, e: Keeper, nextTag: nat)
    requires NativeOk(n, e.owned, nextTag) && ExecOk(n, e) && PhaseOk(n, e, nextTag) && e.phase.Verified?
    ensures e.retiring && e.slots == map[] && e.phase.task == e.id && Proven(n, e.id, e.phase.evidence)
  {
  }

  /** When the guardian releases native: the keeper is dead, no turn start is waiting, and either nothing
      runs at all or the bound task was read; on idle or notLoaded it does not run. */
  lemma GuardianReleasesIdleTask(s0: State, actions: seq<Action>)
    requires Init(s0) && Enabled(Run(s0, actions), GuardReleases)
    ensures var s := Run(s0, actions); var g := s.guard;
      && !s.exec.alive && NoStart(s.native.inbox)
      && (g.watch.task.None? ==> NoneRunning(s.native))
      && (g.watch.task.Some? ==> g.task == g.watch.task)
      && (g.watch.task.Some? ==>
            (g.watch.proof == IdleStatus && !Running(s.native, g.task.value)) || g.watch.proof == TerminalSeen)
  {
    Reachable(s0, actions);
  }

  ghost predicate Starter(slots: map<nat, Slot>, slot: nat) {
    slot in slots && (slots[slot].Cleared? || slots[slot].StartSent?)
  }

  /** At most one thread/start is past its ownership check. */
  ghost predicate OneStart(slots: map<nat, Slot>) {
    forall a, b :: Starter(slots, a) && Starter(slots, b) ==> a == b
  }

  ghost predicate NoStarter(slots: map<nat, Slot>) {
    forall slot :: !Starter(slots, slot)
  }

  ghost predicate OneStartThroughout(s0: State, actions: seq<Action>) {
    forall k :: 0 <= k <= |actions| ==> OneStart(Run(s0, actions[..k]).exec.slots)
  }

  ghost predicate OwnsOne(e: Keeper) {
    && (e.id.None? ==> e.owned == {})
    && (e.id.Some? ==> e.owned == {e.id.value} && NoStarter(e.slots))
  }

  lemma StarterGone(slots: map<nat, Slot>, slot: nat)
    requires OneStart(slots) && Starter(slots, slot)
    ensures NoStarter(slots[slot := Owning])
  {
    var next := slots[slot := Owning];
    assert forall x :: Starter(next, x) ==> Starter(slots, x) && x != slot;
  }

  lemma SlotMoves(slots: map<nat, Slot>, slot: nat, state: Slot)
    requires NoStarter(slots) && !state.Cleared? && !state.StartSent?
    ensures NoStarter(slots[slot := state])
  {
    var next := slots[slot := state];
    assert forall x :: Starter(next, x) ==> Starter(slots, x);
  }

  lemma SlotsShrink(slots: map<nat, Slot>, slot: nat)
    requires NoStarter(slots)
    ensures NoStarter(slots - {slot})
  {
    assert forall x :: Starter(slots - {slot}, x) ==> Starter(slots, x);
  }

  lemma ReceiveOwnsOne(e: Keeper, item: Item)
    requires OwnsOne(e) && OneStart(e.slots)
    ensures OwnsOne(Receive(e, item)) && (e.id.Some? ==> Receive(e, item).id.Some?)
  {
    hide OneStart;
    if item.Created? && item.slot in e.slots && e.slots[item.slot] == StartSent {
      assert Starter(e.slots, item.slot);
      StarterGone(e.slots, item.slot);
    } else if item.TurnReply? && e.id.Some? {
      SlotMoves(e.slots, item.slot, Answered);
    }
  }

  lemma NextOwnsOne(s: State, a: Action)
    requires OwnsOne(s.exec) && OneStart(s.exec.slots)
    ensures OwnsOne(Next(s, a).exec) && (s.exec.id.Some? ==> Next(s, a).exec.id.Some?)
  {
    hide Receive; hide NoStarter; hide OneStart; hide Serve;
    if Enabled(s, a) {
      if a.ExecutorReceives? {
        ReceiveOwnsOne(s.exec, s.native.toExecutor[0]);
      } else {
        var e, e' := s.exec, Step(s, a).exec;
        assert e'.id == e.id && e'.owned == e.owned;
        if e.id.Some? { SlotsStay(s, a); }
      }
    }
  }

  lemma SlotsStay(s: State, a: Action)
    requires Enabled(s, a) && !a.ExecutorReceives? && s.exec.id.Some? && NoStarter(s.exec.slots)
    ensures NoStarter(Step(s, a).exec.slots)
  {
    if a.Settle? { SlotsShrink(s.exec.slots, a.slot); }
    else if a.SendStart? { assert Starter(s.exec.slots, a.slot); }
    else if a.Admit? { SlotMoves(s.exec.slots, a.slot, Admitted); }
    else if a.SendTurn? { SlotMoves(s.exec.slots, a.slot, TurnSent); }
    else if a.Reopen? || a.MarkActive? { SlotMoves(s.exec.slots, a.slot, Finished); }
  }

  /** With one thread/start at a time the executor only ever owns one task. */
  lemma {:induction false} OwnsOneThroughout(s0: State, actions: seq<Action>)
    requires Init(s0) && OneStartThroughout(s0, actions)
    ensures OwnsOne(Run(s0, actions).exec)
    decreases |actions|
  {
    if actions != [] {
      var shorter := actions[..|actions| - 1];
      assert forall k :: 0 <= k <= |shorter| ==> shorter[..k] == actions[..k];
      OwnsOneThroughout(s0, shorter);
      assert OneStart(Run(s0, actions[..|actions| - 1]).exec.slots);
      NextOwnsOne(Run(s0, shorter), actions[|actions| - 1]);
    }
  }

  lemma {:induction false} AdmittedOwnsOne(s0: State, actions: seq<Action>)
    requires Init(s0) && s0.exec.id.Some?
    ensures Run(s0, actions).exec.id.Some? && OwnsOne(Run(s0, actions).exec)
    decreases |actions|
  {
    if actions != [] {
      AdmittedOwnsOne(s0, actions[..|actions| - 1]);
      var s, a := Run(s0, actions[..|actions| - 1]), actions[|actions| - 1];
      assert OneStart(s.exec.slots);
      NextOwnsOne(s, a);
    }
  }

  /** An executor that resumed an admitted task never creates another one. */
  lemma AdmittedStartsNothing(s0: State, actions: seq<Action>)
    requires Init(s0) && s0.exec.id.Some?
    ensures OneStartThroughout(s0, actions)
  {
    forall k | 0 <= k <= |actions| ensures OneStart(Run(s0, actions[..k]).exec.slots) {
      AdmittedOwnsOne(s0, actions[..k]);
    }
  }

  // ----- what a connection tells -----

  /** Whether the last start or completion of t is a completion, once these items are taken. */
  ghost function Told(done: bool, box: seq<Item>, t: nat): bool
    decreases box
  {
    if box == [] then done else Told(Hears(done, box[0], t), box[1..], t)
  }

  ghost function Hears(done: bool, item: Item, t: nat): bool {
    if item.Started? && item.thread == t then false
    else if item.Completed? && item.thread == t then true else done
  }

  /** Having believed `done`, hearing everything on this connection tells exactly whether t runs. */
  ghost predicate Tracks(n: Native, box: seq<Item>, done: bool, t: nat) { Running(n, t) <==> !Told(done, box, t) }

  /** One of the two beliefs is right, whatever the thread. */
  ghost predicate Truth(n: Native, box: seq<Item>) { forall t :: Tracks(n, box, false, t) || Tracks(n, box, true, t) }

  /** From n to m exactly the thread this item speaks of starts or stops. */
  ghost predicate Spoken(n: Native, m: Native, item: Item) { forall t :: Running(m, t) <==> !Hears(!Running(n, t), item, t) }

  lemma {:induction false} ToldSnoc(done: bool, box: seq<Item>, item: Item, t: nat)
    ensures Told(done, box + [item], t) == Hears(Told(done, box, t), item, t)
    decreases box
  {
    if box == [] {
      assert box + [item] == [item] && [item][1..] == [];
    } else {
      ToldSnoc(Hears(done, box[0], t), box[1..], item, t);
      assert (box + [item])[1..] == box[1..] + [item];
    }
  }

  lemma {:induction false} ToldMonotone(a: bool, b: bool, box: seq<Item>, t: nat)
    requires a ==> b
    ensures Told(a, box, t) ==> Told(b, box, t)
    decreases box
  {
    if box != [] { ToldMonotone(Hears(a, box[0], t), Hears(b, box[0], t), box[1..], t); }
  }

  lemma {:induction false} ToldStays(box: seq<Item>, t: nat)
    requires forall i :: 0 <= i < |box| ==> !(box[i].Started? && box[i].thread == t)
    ensures Told(true, box, t)
  {
    if box != [] { ToldStays(box[1..], t); }
  }

  lemma TracksMore(n: Native, m: Native, box: seq<Item>, item: Item, done: bool, t: nat)
    requires Tracks(n, box, done, t) && Spoken(n, m, item)
    ensures Tracks(m, box + [item], done, t)
  {
    ToldSnoc(done, box, item, t);
  }

  lemma TruthMore(n: Native, m: Native, box: seq<Item>, item: Item)
    requires Truth(n, box) && Spoken(n, m, item)
    ensures Truth(m, box + [item])
  {
    hide Tracks; hide Spoken;
    forall t ensures Tracks(m, box + [item], false, t) || Tracks(m, box + [item], true, t) {
      if Tracks(n, box, false, t) { TracksMore(n, m, box, item, false, t); } else { TracksMore(n, m, box, item, true, t); }
    }
  }

  lemma TruthTail(n: Native, box: seq<Item>)
    requires box != [] && Truth(n, box)
    ensures Truth(n, box[1..])
    ensures forall t :: Hears(false, box[0], t) ==> Tracks(n, box[1..], true, t)
  {
    forall t
      ensures Tracks(n, box[1..], false, t) || Tracks(n, box[1..], true, t)
      ensures Hears(false, box[0], t) ==> Tracks(n, box[1..], true, t)
    {
      assert Tracks(n, box, false, t) || Tracks(n, box, true, t);
    }
  }

  /** A thread that does not run is told of as ended by any connection. */
  lemma TruthIdle(n: Native, box: seq<Item>, t: nat)
    requires Truth(n, box) && !Running(n, t)
    ensures Tracks(n, box, true, t)
  {
    ToldMonotone(false, true, box, t);
    assert Tracks(n, box, false, t) || Tracks(n, box, true, t);
  }

  /** The same connection about a native that runs the same threads. */
  lemma SameRunning(n: Native, m: Native, box: seq<Item>)
    requires forall t :: Running(m, t) == Running(n, t)
    ensures Truth(n, box) ==> Truth(m, box)
    ensures forall done, t :: Tracks(n, box, done, t) ==> Tracks(m, box, done, t)
  {
    hide Running;
    forall t | Tracks(n, box, false, t) || Tracks(n, box, true, t) ensures Tracks(m, box, false, t) || Tracks(m, box, true, t) {
    }
  }

  ghost predicate KeepsTracks(n: Native, m: Native, box: seq<Item>, next: seq<Item>) {
    && (Truth(n, box) ==> Truth(m, next))
    && (forall done, t :: Tracks(n, box, done, t) ==> Tracks(m, next, done, t))
  }

  lemma ItemKeepsTracks(n: Native, m: Native, box: seq<Item>, item: Item)
    requires Spoken(n, m, item)
    ensures KeepsTracks(n, m, box, box + [item])
  {
    hide Tracks; hide Spoken; hide Truth;
    if Truth(n, box) { TruthMore(n, m, box, item); }
    forall done, t | Tracks(n, box, done, t) ensures Tracks(m, box + [item], done, t) { TracksMore(n, m, box, item, done, t); }
  }

  lemma ServeSpeaks(n: Native, name: nat, kind: Kind)
    requires n.inbox != []
    ensures var m, head := Serve(n, name, kind), n.inbox[0];
      if head.StartTurn? && head.thread in n.threads && !Running(n, head.thread)
      then
        var started := Started(head.thread, |n.threads[head.thread]|);
        && m.toExecutor == n.toExecutor + [started] + [TurnReply(head.slot, head.thread, started.turn)]
        && m.toGuardian == n.toGuardian + [started] && Spoken(n, m, started)
      else
        && (forall t :: Running(m, t) == Running(n, t))
        && (m.toExecutor == n.toExecutor || (m.toExecutor == n.toExecutor + [m.toExecutor[|n.toExecutor|]]
                                             && !m.toExecutor[|n.toExecutor|].Started? && !m.toExecutor[|n.toExecutor|].Completed?))
        && (m.toGuardian == n.toGuardian || (m.toGuardian == n.toGuardian + [m.toGuardian[|n.toGuardian|]]
                                             && !m.toGuardian[|n.toGuardian|].Started? && !m.toGuardian[|n.toGuardian|].Completed?))
  {
  }

  lemma PlainSpeaks(n: Native, m: Native, item: Item)
    requires (forall t :: Running(m, t) == Running(n, t)) && !item.Started? && !item.Completed?
    ensures Spoken(n, m, item)
  {
  }

  lemma PlainBox(n: Native, m: Native, box: seq<Item>, next: seq<Item>)
    requires forall t :: Running(m, t) == Running(n, t)
    requires next == box || (|next| == |box| + 1 && next == box + [next[|box|]] && !next[|box|].Started? && !next[|box|].Completed?)
    ensures KeepsTracks(n, m, box, next)
  {
    hide Running; hide Truth; hide Spoken;
    if next == box {
      SameRunning(n, m, box);
    } else {
      PlainSpeaks(n, m, next[|box|]);
      ItemKeepsTracks(n, m, box, next[|box|]);
    }
  }

  lemma ServeTracks(n: Native, name: nat, kind: Kind)
    requires n.inbox != []
    ensures var m := Serve(n, name, kind);
      KeepsTracks(n, m, n.toExecutor, m.toExecutor) && KeepsTracks(n, m, n.toGuardian, m.toGuardian)
  {
    hide Serve; hide Spoken; hide Running; hide Truth; hide Tracks;
    var m, head := Serve(n, name, kind), n.inbox[0];
    ServeSpeaks(n, name, kind);
    if head.StartTurn? && head.thread in n.threads && !Running(n, head.thread) {
      var started := Started(head.thread, |n.threads[head.thread]|);
      var reply := TurnReply(head.slot, head.thread, started.turn);
      ItemKeepsTracks(n, m, n.toGuardian, started);
      ItemKeepsTracks(n, m, n.toExecutor, started);
      PlainSpeaks(m, m, reply);
      ItemKeepsTracks(m, m, n.toExecutor + [started], reply);
    } else {
      PlainBox(n, m, n.toExecutor, m.toExecutor);
      PlainBox(n, m, n.toGuardian, m.toGuardian);
    }
  }

  lemma FinishTracks(n: Native, t: nat)
    requires Running(n, t)
    ensures var m := Finish(n, t);
      KeepsTracks(n, m, n.toExecutor, m.toExecutor) && KeepsTracks(n, m, n.toGuardian, m.toGuardian)
  {
    var m, item := Finish(n, t), Completed(t, |n.threads[t]| - 1);
    assert Spoken(n, m, item);
    hide Spoken; hide KeepsTracks;
    ItemKeepsTracks(n, m, n.toExecutor, item);
    ItemKeepsTracks(n, m, n.toGuardian, item);
  }

  lemma CloseTracks(n: Native, t: nat)
    ensures var m := Closes(n, t); KeepsTracks(n, m, n.toExecutor, m.toExecutor) && KeepsTracks(n, m, n.toGuardian, m.toGuardian)
  {
    var m := Closes(n, t);
    PlainBox(n, m, n.toExecutor, m.toExecutor);
    PlainBox(n, m, n.toGuardian, m.toGuardian);
  }

  // ----- what the guardian was told -----

  /** The guardian hears of the start or completion of its task. */
  ghost predicate Speaks(s: State, a: Action) {
    a.GuardReceives? && Enabled(s, a) && s.guard.task.Some? &&
    var head := s.native.toGuardian[0]; (head.Started? || head.Completed?) && head.thread == s.guard.task.value
  }

  ghost predicate Reconnects(s: State, a: Action) { a.GuardReconnects? && Enabled(s, a) }

  /** What was discarded with lost connections since the guardian last heard of its task. */
  ghost function Discarded(s0: State, actions: seq<Action>): seq<Item>
    decreases |actions|
  {
    if actions == [] then []
    else
      var n := |actions| - 1;
      StillDiscarded(Run(s0, actions[..n]), actions[n], Discarded(s0, actions[..n]))
  }

  ghost function StillDiscarded(s: State, a: Action, lost: seq<Item>): seq<Item> {
    if Reconnects(s, a) then lost + s.native.toGuardian else if Speaks(s, a) then [] else lost
  }

  /** A completion is remembered, or was when a read was judged. */
  ghost predicate Remembers(g: Guard) { g.terminal || (g.watch.Decided? && g.watch.proof == TerminalSeen) }

  /** Then what was discarded since and what is still unread tell exactly whether the task runs. */
  ghost predicate HeardOk(n: Native, g: Guard, lost: seq<Item>) {
    && Truth(n, n.toGuardian)
    && (Remembers(g) ==> g.task.Some? && Tracks(n, n.toGuardian, Told(true, lost, g.task.value), g.task.value))
  }

  ghost predicate NoStartAfter(box: seq<Item>, tag: nat) {
    forall i, j :: 0 <= i < j < |box| && Answers(box[i], tag) ==> !box[j].Started?
  }

  ghost predicate NoneStarted(box: seq<Item>) { forall i :: 0 <= i < |box| ==> !box[i].Started? }

  /** No start stands behind the answer to the read, nor behind the one the guardian decided on. */
  ghost predicate BoxOk(n: Native, g: Guard) {
    && (g.watch.Reading? ==> NoStartAfter(n.toGuardian, g.watch.tag))
    && (g.watch.Decided? && g.watch.proof == TerminalSeen ==> NoneStarted(n.toGuardian))
  }

  lemma {:induction false} ToldAppend(done: bool, a: seq<Item>, b: seq<Item>, t: nat)
    ensures Told(done, a + b, t) == Told(Told(done, a, t), b, t)
    decreases a
  {
    if a == [] {
      assert a + b == b;
    } else {
      assert (a + b)[1..] == a[1..] + b;
      ToldAppend(Hears(done, a[0], t), a[1..], b, t);
    }
  }

  lemma NoticeHeard(n: Native, g: Guard, lost: seq<Item>, next: seq<Item>)
    requires n.toGuardian != [] && HeardOk(n, g, lost) && BoxOk(n, g) && (g.watch.Reading? ==> g.task == Some(g.watch.thread))
    requires var head := n.toGuardian[0];
      next == if g.task.Some? && (head.Started? || head.Completed?) && head.thread == g.task.value then [] else lost
    ensures HeardOk(n.(toGuardian := n.toGuardian[1..]), Notice(g, n.toGuardian[0]), next)
  {
    hide Truth; hide Running; hide NoStartAfter;
    var head, rest, m := n.toGuardian[0], n.toGuardian[1..], n.(toGuardian := n.toGuardian[1..]);
    TruthTail(n, n.toGuardian);
    SameThreads(n, m);
    SameRunning(n, m, rest);
  }

  lemma SameThreads(n: Native, m: Native)
    requires m.threads == n.threads
    ensures forall t :: Running(m, t) == Running(n, t)
  {
  }

  /** A step of native's, or one that leaves connection and threads alone, keeps what was told. */
  lemma KeepsHeard(n: Native, m: Native, g: Guard, lost: seq<Item>)
    requires HeardOk(n, g, lost) && KeepsTracks(n, m, n.toGuardian, m.toGuardian)
    ensures HeardOk(m, g, lost)
  {
    hide Truth; hide Tracks;
  }

  lemma QuietKeepsHeard(s: State, a: Action, lost: seq<Item>)
    requires HeardOk(s.native, s.guard, lost) && Enabled(s, a)
    requires !a.NativeServes? && !a.TurnEnds? && !a.ThreadCloses? && !a.GuardReceives? && !a.GuardReconnects?
    ensures HeardOk(Step(s, a).native, Step(s, a).guard, lost)
  {
    hide Truth; hide Tracks; hide Receive; hide Running;
    var n, m := s.native, Step(s, a).native;
    assert m.threads == n.threads && m.toGuardian == n.toGuardian;
    SameThreads(n, m);
    SameRunning(n, m, n.toGuardian);
  }

  lemma NextHeard(s: State, a: Action, lost: seq<Item>)
    requires Inv(s) && HeardOk(s.native, s.guard, lost) && BoxOk(s.native, s.guard)
    ensures HeardOk(Next(s, a).native, Next(s, a).guard, StillDiscarded(s, a, lost))
  {
    hide PhaseOk; hide NativeOk; hide ExecOk; hide HeardOk; hide BoxOk; hide KeepsTracks; hide Serve; hide Finish; hide Closes; hide Notice; hide Receive; hide Running;
    if Enabled(s, a) {
      var n, m := s.native, Step(s, a).native;
      match a
      case NativeServes(name, kind) => ServeTracks(n, name, kind); KeepsHeard(n, m, s.guard, lost);
      case TurnEnds(t) => FinishTracks(n, t); KeepsHeard(n, m, s.guard, lost);
      case ThreadCloses(t) => CloseTracks(n, t); KeepsHeard(n, m, s.guard, lost);
      case GuardReceives => NoticeHeard(n, s.guard, lost, StillDiscarded(s, a, lost));
      case GuardReconnects => ReconnectHeard(s, lost);
      case _ => QuietKeepsHeard(s, a, lost);
    }
  }

  lemma ReconnectHeard(s: State, lost: seq<Item>)
    requires HeardOk(s.native, s.guard, lost) && Enabled(s, GuardReconnects)
    ensures HeardOk(Step(s, GuardReconnects).native, Step(s, GuardReconnects).guard, lost + s.native.toGuardian)
  {
    var m := Step(s, GuardReconnects).native;
    assert m.toGuardian == [];
    if s.guard.task.Some? { ToldAppend(true, lost, s.native.toGuardian, s.guard.task.value); }
    forall t ensures Tracks(m, [], false, t) || Tracks(m, [], true, t) {
    }
  }

  // ----- no start behind an answer -----

  lemma ServeBox(n: Native, g: Guard, name: nat, kind: Kind, alive: bool, nextTag: nat)
    requires n.inbox != [] && WatchOk(n, g, alive, nextTag) && BoxOk(n, g)
    ensures BoxOk(Serve(n, name, kind), g)
  {
    hide Running; hide Truth; hide Spoken;
    var m := Serve(n, name, kind);
    ServeSpeaks(n, name, kind);
    hide Serve;
    if m.toGuardian != n.toGuardian { MoreBox(n, m, g, m.toGuardian[|n.toGuardian|]); }
  }

  /** One more item, which is no start unless a start was still to be served. */
  lemma MoreBox(n: Native, m: Native, g: Guard, item: Item)
    requires BoxOk(n, g) && m.toGuardian == n.toGuardian + [item] && (item.Started? ==> !NoStart(n.inbox))
    requires g.watch.Reading? ==> AllMean(n, n.toGuardian, g.watch.tag, g.watch.thread)
    requires g.watch.Decided? ==> NoStart(n.inbox)
    ensures BoxOk(m, g)
  {
    hide NoStart; hide Means;
    if g.watch.Reading? && item.Started? { Unanswered(n, g.watch.tag, g.watch.thread); }
  }

  lemma Unanswered(n: Native, tag: nat, thread: nat)
    requires AllMean(n, n.toGuardian, tag, thread) && !NoStart(n.inbox)
    ensures forall i :: 0 <= i < |n.toGuardian| ==> !Answers(n.toGuardian[i], tag)
  {
    UnansweredYet(n, n.toGuardian, tag, thread);
  }

  lemma BoxTail(box: seq<Item>, tag: nat)
    requires box != []
    ensures NoStartAfter(box, tag) ==> NoStartAfter(box[1..], tag) && (Answers(box[0], tag) ==> NoneStarted(box[1..]))
    ensures NoneStarted(box) ==> NoneStarted(box[1..])
  {
    assert forall i :: 0 <= i < |box[1..]| ==> box[1..][i] == box[i + 1];
  }

  lemma NoticeBox(n: Native, g: Guard)
    requires n.toGuardian != [] && BoxOk(n, g)
    ensures BoxOk(n.(toGuardian := n.toGuardian[1..]), Notice(g, n.toGuardian[0]))
  {
    hide NoStartAfter; hide NoneStarted;
    BoxTail(n.toGuardian, if g.watch.Reading? then g.watch.tag else 0);
  }

  lemma NextBox(s: State, a: Action)
    requires Inv(s) && BoxOk(s.native, s.guard)
    ensures BoxOk(Next(s, a).native, Next(s, a).guard)
  {
    hide PhaseOk; hide NativeOk; hide ExecOk; hide WatchOk; hide Serve; hide Notice; hide Receive; hide NoStartAfter; hide NoneStarted; hide BoxOk;
    if Enabled(s, a) {
      match a
      case NativeServes(name, kind) => ServeBox(s.native, s.guard, name, kind, s.exec.alive, s.nextTag);
      case TurnEnds(t) => FinishBox(s.native, t, s.guard);
      case GuardReceives => NoticeBox(s.native, s.guard);
      case GuardAsks => AskBox(s);
      case GuardReconnects => WatchingBox(Step(s, a).native, Step(s, a).guard);
      case GuardBinds(_) => WatchingBox(Step(s, a).native, Step(s, a).guard);
      case _ => SameBox(s.native, Step(s, a).native, s.guard);
    }
  }

  lemma SameBox(n: Native, m: Native, g: Guard)
    requires BoxOk(n, g) && m.toGuardian == n.toGuardian
    ensures BoxOk(m, g)
  {
  }

  lemma WatchingBox(n: Native, g: Guard)
    requires g.watch == Watching
    ensures BoxOk(n, g)
  {
  }

  lemma FinishBox(n: Native, t: nat, g: Guard)
    requires Running(n, t) && BoxOk(n, g)
    ensures BoxOk(Finish(n, t), g)
  {
  }

  lemma AskBox(s: State)
    requires Inv(s) && Enabled(s, GuardAsks)
    ensures BoxOk(Step(s, GuardAsks).native, Step(s, GuardAsks).guard)
  {
    assert forall i :: 0 <= i < |s.native.toGuardian| ==> !Answers(s.native.toGuardian[i], s.nextTag);
  }

  lemma {:induction false} HeardThroughout(s0: State, actions: seq<Action>)
    requires Init(s0)
    ensures var s := Run(s0, actions); HeardOk(s.native, s.guard, Discarded(s0, actions)) && BoxOk(s.native, s.guard)
    decreases |actions|
  {
    if actions != [] {
      hide HeardOk; hide BoxOk; hide Next; hide StillDiscarded;
      var shorter := actions[..|actions| - 1];
      HeardThroughout(s0, shorter);
      Reachable(s0, shorter);
      NextHeard(Run(s0, shorter), actions[|actions| - 1], Discarded(s0, shorter));
      NextBox(Run(s0, shorter), actions[|actions| - 1]);
    } else {
      assert forall t :: Tracks(s0.native, [], true, t);
    }
  }

  // ----- nothing runs when the guardian releases -----

  /** What was discarded since the guardian last heard of its task does not end in a start of it. */
  ghost predicate LostNoStart(s0: State, actions: seq<Action>) {
    var task := Run(s0, actions).guard.task;
    task.Some? ==> Told(true, Discarded(s0, actions), task.value)
  }

  /** At release the task the guardian read runs exactly if it decided on a remembered completion, the items discarded
      since end in a start, and no completion is unread. */
  lemma GuardTaskRuns(s0: State, actions: seq<Action>)
    requires Init(s0) && Enabled(Run(s0, actions), GuardReleases) && Run(s0, actions).guard.watch.task.Some?
    ensures var s := Run(s0, actions); var task := s.guard.task;
      task == s.guard.watch.task &&
      (Running(s.native, task.value) <==>
         s.guard.watch.proof == TerminalSeen && !LostNoStart(s0, actions) && !Told(false, s.native.toGuardian, task.value))
  {
    hide Run; hide Init; hide Inv; hide Discarded;
    var s := Run(s0, actions);
    GuardianReleasesIdleTask(s0, actions);
    HeardThroughout(s0, actions);
    if s.guard.watch.proof == TerminalSeen { ToldStays(s.native.toGuardian, s.guard.task.value); }
  }

  /** Whatever else runs is a task the dead keeper owned besides. */
  lemma OthersOwned(s: State)
    requires Inv(s) && s.guard.watch.Decided? && s.guard.watch.task.Some?
    ensures s.guard.task.Some? && forall t :: Running(s.native, t) && t != s.guard.task.value ==> !s.guard.listed && t in s.exec.owned
  {
  }

  /** The task the guardian read does not run when it releases native, on a remembered completion if no start of the
      task was lost with a connection since the guardian last heard of it. Whatever runs is a task the keeper
      owned besides, and without one nothing runs. */
  lemma NothingRunsAtGuardRelease(s0: State, actions: seq<Action>)
    requires Init(s0) && Enabled(Run(s0, actions), GuardReleases)
    requires Run(s0, actions).guard.watch.proof == TerminalSeen ==> LostNoStart(s0, actions)
    ensures var s := Run(s0, actions); var g := s.guard;
      && (g.watch.task.None? ==> NoneRunning(s.native))
      && (g.watch.task.Some? ==>
            && g.task == g.watch.task && !Running(s.native, g.task.value)
            && (forall t :: t in s.native.threads && Running(s.native, t) ==> !g.listed && t in s.exec.owned && t != g.task.value)
            && (g.listed || s.exec.owned <= {g.task.value} ==> NoneRunning(s.native)))
  {
    hide Run; hide Init; hide LostNoStart; hide Running;
    var s := Run(s0, actions);
    GuardianReleasesIdleTask(s0, actions);
    if s.guard.watch.task.Some? {
      GuardTaskRuns(s0, actions);
      Reachable(s0, actions);
      OthersOwned(s);
    }
  }

  /** The guardian never reconnects while it remembers a completion. */
  ghost predicate KeepsConnection(s0: State, actions: seq<Action>) {
    forall k :: 0 <= k < |actions| && Reconnects(Run(s0, actions[..k]), actions[k]) ==> !Run(s0, actions[..k]).guard.terminal
  }

  lemma DiscardedStep(s0: State, actions: seq<Action>, a: Action)
    ensures Discarded(s0, actions + [a]) == StillDiscarded(Run(s0, actions), a, Discarded(s0, actions))
  {
    assert (actions + [a])[..|actions|] == actions;
  }

  lemma {:induction false} NothingDiscarded(s0: State, actions: seq<Action>)
    requires Init(s0) && KeepsConnection(s0, actions)
    ensures Remembers(Run(s0, actions).guard) ==> Discarded(s0, actions) == []
    decreases |actions|
  {
    if actions != [] {
      hide Init; hide Inv; hide Next; hide Remembers; hide Discarded; hide StillDiscarded; hide Reconnects; hide KeepsConnection;
      var n := |actions| - 1;
      var shorter, a := actions[..n], actions[n];
      ShorterKeeps(s0, actions);
      NothingDiscarded(s0, shorter);
      Reachable(s0, shorter);
      assert shorter + [a] == actions;
      DiscardedStep(s0, shorter, a);
      StepDiscards(Run(s0, shorter), a, Discarded(s0, shorter));
    }
  }

  lemma ShorterKeeps(s0: State, actions: seq<Action>)
    requires actions != [] && KeepsConnection(s0, actions)
    ensures var n := |actions| - 1; var s := Run(s0, actions[..n]);
      KeepsConnection(s0, actions[..n]) && (Reconnects(s, actions[n]) ==> !s.guard.terminal)
  {
    hide Run; hide Reconnects;
    var n := |actions| - 1;
    var shorter := actions[..n];
    assert forall k :: 0 <= k < n ==> shorter[..k] == actions[..k] && shorter[k] == actions[k];
  }

  lemma StepDiscards(s: State, a: Action, lost: seq<Item>)
    requires Inv(s) && (Remembers(s.guard) ==> lost == []) && (Reconnects(s, a) ==> !s.guard.terminal)
    ensures Remembers(Next(s, a).guard) ==> StillDiscarded(s, a, lost) == []
  {
    hide Inv; hide Next; hide Remembers;
    RemembersAnew(s, a);
  }

  /** A completion is remembered by hearing of the task, and decided on by remembering it. */
  lemma RemembersAnew(s: State, a: Action)
    requires Inv(s)
    ensures var g, g' := s.guard, Next(s, a).guard;
      Remembers(g') && !Speaks(s, a) ==> if Reconnects(s, a) then g.terminal else Remembers(g)
  {
    hide Serve; hide Receive; hide PhaseOk; hide NativeOk; hide ExecOk;
  }

  /** A guardian that never reconnects while it remembers a completion, which it can see for itself, releases native
      only when nothing runs; one thread/start at a time for the tasks besides. */
  lemma ConnectedGuardIsSafe(s0: State, actions: seq<Action>)
    requires Init(s0) && KeepsConnection(s0, actions) && Enabled(Run(s0, actions), GuardReleases)
    ensures LostNoStart(s0, actions) || Run(s0, actions).guard.watch.proof != TerminalSeen
    ensures Run(s0, actions).guard.watch.task.Some? ==>
      Run(s0, actions).guard.task.Some? && !Running(Run(s0, actions).native, Run(s0, actions).guard.task.value)
    ensures OneStartThroughout(s0, actions) ==> NoneRunning(Run(s0, actions).native)
  {
    hide Run; hide Init; hide KeepsConnection; hide OneStartThroughout; hide Discarded;
    NothingDiscarded(s0, actions);
    NothingRunsAtGuardRelease(s0, actions);
    if OneStartThroughout(s0, actions) { OneTaskAtGuardRelease(s0, actions); }
  }

  /** With one thread/start at a time the task it read is the only one. */
  lemma OneTaskAtGuardRelease(s0: State, actions: seq<Action>)
    requires Init(s0) && OneStartThroughout(s0, actions) && Enabled(Run(s0, actions), GuardReleases)
    requires Run(s0, actions).guard.watch.proof == TerminalSeen ==> LostNoStart(s0, actions)
    ensures NoneRunning(Run(s0, actions).native)
  {
    hide Run; hide Init; hide OneStartThroughout; hide LostNoStart;
    NothingRunsAtGuardRelease(s0, actions);
    OwnsOneThroughout(s0, actions);
    Reachable(s0, actions);
    BoundTask(Run(s0, actions));
  }

  lemma BoundTask(s: State)
    requires Inv(s) && OwnsOne(s.exec) && s.guard.watch.Decided?
    ensures s.guard.task.Some? && !s.guard.listed ==> s.exec.owned <= {s.guard.task.value}
  {
  }

  // ----- what the executor was told -----

  ghost predicate TurnDone(e: Keeper) { e.turn.Some? && e.turn.value.terminal }

  /** Threads created for the executor are new to it; nothing is created for one that has its task and starts none. */
  ghost predicate NamesNew(n: Native, e: Keeper) {
    && (forall i :: 0 <= i < |n.toExecutor| && n.toExecutor[i].Created? ==> n.toExecutor[i].thread in n.threads)
    && ((e.id.Some? && NoStarter(e.slots)) || OwnsThreads(n, e))
  }

  ghost predicate OwnsThreads(n: Native, e: Keeper) {
    && e.owned <= n.threads.Keys
    && (forall i :: 0 <= i < |n.toExecutor| && n.toExecutor[i].Created? ==> n.toExecutor[i].thread !in e.owned)
    && (forall i, j :: 0 <= i < j < |n.toExecutor| && n.toExecutor[i].Created? && n.toExecutor[j].Created? ==>
          n.toExecutor[i].thread != n.toExecutor[j].thread)
  }

  /** A terminal turn in the executor's record was the latest of its task when the last item was heard. */
  ghost predicate TurnTold(n: Native, e: Keeper) {
    && (e.id.None? ==> !TurnDone(e))
    && (e.id.Some? && TurnDone(e) ==> Tracks(n, n.toExecutor, true, e.id.value) && e.id.value in n.threads)
  }

  ghost predicate HeardExec(n: Native, e: Keeper) {
    Truth(n, n.toExecutor) && TurnTold(n, e) && NamesNew(n, e)
  }

  lemma ServeNames(n: Native, name: nat, kind: Kind, e: Keeper)
    requires n.inbox != [] && NamesNew(n, e)
    ensures NamesNew(Serve(n, name, kind), e) && n.threads.Keys <= Serve(n, name, kind).threads.Keys
  {
    var m := Serve(n, name, kind);
    assert forall i :: 0 <= i < |n.toExecutor| ==> m.toExecutor[i] == n.toExecutor[i];
    assert forall i :: |n.toExecutor| <= i < |m.toExecutor| && m.toExecutor[i].Created? ==>
      i == |n.toExecutor| && m.toExecutor[i].thread !in n.threads;
    if OwnsThreads(n, e) { assert OwnsThreads(m, e); }
  }

  lemma ItemNames(n: Native, m: Native, e: Keeper, item: Item)
    requires NamesNew(n, e) && m.toExecutor == n.toExecutor + [item] && !item.Created? && n.threads.Keys <= m.threads.Keys
    ensures NamesNew(m, e)
  {
    assert forall i :: 0 <= i < |m.toExecutor| && m.toExecutor[i].Created? ==> i < |n.toExecutor| && m.toExecutor[i] == n.toExecutor[i];
    if OwnsThreads(n, e) { assert OwnsThreads(m, e); }
  }

  /** This item answers a thread/start that waits for it. */
  ghost predicate Owns(e: Keeper, item: Item) {
    item.Created? && item.slot in e.slots && e.slots[item.slot] == StartSent
  }

  lemma ReceiveTask(e: Keeper, item: Item)
    ensures var e' := Receive(e, item);
      if Owns(e, item) then e'.id == Some(item.thread) && e'.owned == e.owned + {item.thread} && e'.turn == e.turn
      else e'.id == e.id && e'.owned == e.owned
  {
  }

  lemma ReceiveNames(n: Native, e: Keeper)
    requires n.toExecutor != [] && NamesNew(n, e)
    ensures NamesNew(n.(toExecutor := n.toExecutor[1..]), Receive(e, n.toExecutor[0]))
  {
    hide NoStarter; hide Receive;
    var head, rest := n.toExecutor[0], n.toExecutor[1..];
    var m, e' := n.(toExecutor := rest), Receive(e, head);
    ReceiveTask(e, head);
    assert forall i :: 0 <= i < |rest| ==> rest[i] == n.toExecutor[i + 1];
    if e.id.Some? && NoStarter(e.slots) {
      ReceiveSlots(e, head);
    } else {
      assert OwnsThreads(m, e');
    }
  }

  lemma ReceiveSlots(e: Keeper, item: Item)
    requires e.id.Some? && NoStarter(e.slots)
    ensures NoStarter(Receive(e, item).slots) && Receive(e, item).id == e.id && Receive(e, item).owned == e.owned
  {
    if item.Created? {
      assert !Starter(e.slots, item.slot);
    } else if item.TurnReply? {
      SlotMoves(e.slots, item.slot, Answered);
    }
  }

  lemma ReceiveTold(n: Native, e: Keeper, nextTag: nat)
    requires n.toExecutor != [] && HeardExec(n, e) && NativeOk(n, e.owned, nextTag)
    ensures TurnTold(n.(toExecutor := n.toExecutor[1..]), Receive(e, n.toExecutor[0]))
  {
    hide Truth; hide Running; hide NamesNew; hide Tracks; hide Receive; hide NativeOk; hide Told;
    var head, rest := n.toExecutor[0], n.toExecutor[1..];
    var m, e' := n.(toExecutor := rest), Receive(e, head);
    TruthTail(n, n.toExecutor);
    SameThreads(n, m);
    SameRunning(n, m, rest);
    if e'.id != e.id {
      NewTaskIdle(n, e, nextTag);
      TruthIdle(n, rest, e'.id.value);
    } else {
      TurnAfter(e, head);
      if e.id.Some? && TurnDone(e') { TrueAfter(n, e, nextTag); }
    }
  }

  lemma TurnAfter(e: Keeper, item: Item)
    requires Receive(e, item).id == e.id
    ensures TurnDone(Receive(e, item)) && e.id.Some? ==>
      if item.Completed? && item.thread == e.id.value then Hears(false, item, e.id.value)
      else TurnDone(e) && Hears(true, item, e.id.value)
    ensures e.id.None? && !TurnDone(e) ==> !TurnDone(Receive(e, item))
  {
    hide Receive;
    ReceiveTurn(e, item);
  }

  lemma ReceiveTurn(e: Keeper, item: Item)
    ensures var e' := Receive(e, item);
      if (item.Started? || item.Completed?) && e.id == Some(item.thread) then TurnDone(e') == item.Completed?
      else e'.turn == e.turn || !TurnDone(e')
  {
    hide TurnDone;
    match item
    case TurnReply(_, _, _) => ReplyTurn(e, item);
    case Started(_, _) => NoticeTurn(e, item);
    case Completed(_, _) => NoticeTurn(e, item);
    case _ =>
  }

  lemma ReplyTurn(e: Keeper, item: Item)
    requires item.TurnReply?
    ensures var e' := Receive(e, item); e'.turn == e.turn || !TurnDone(e')
  {
  }

  lemma NoticeTurn(e: Keeper, item: Item)
    requires item.Started? || item.Completed?
    ensures var e' := Receive(e, item); if e.id == Some(item.thread) then TurnDone(e') == item.Completed? else e'.turn == e.turn
  {
  }

  lemma TrueAfter(n: Native, e: Keeper, nextTag: nat)
    requires n.toExecutor != [] && TurnTold(n, e) && NativeOk(n, e.owned, nextTag) && e.id.Some?
    requires var head, t := n.toExecutor[0], e.id.value;
      if head.Completed? && head.thread == t then Hears(false, head, t) else TurnDone(e) && Hears(true, head, t)
    ensures e.id.value in n.threads
    ensures Tracks(n, n.toExecutor[1..], true, e.id.value) || Hears(false, n.toExecutor[0], e.id.value)
  {
    hide Running;
  }

  /** A task that becomes the executor's does not run yet. */
  lemma NewTaskIdle(n: Native, e: Keeper, nextTag: nat)
    requires n.toExecutor != [] && NamesNew(n, e) && NativeOk(n, e.owned, nextTag) && Receive(e, n.toExecutor[0]).id != e.id
    ensures var id := Receive(e, n.toExecutor[0]).id; id.Some? && id.value in n.threads && !Running(n, id.value)
  {
    hide Running; hide NoStarter; hide Starter; hide Receive;
    ReceiveTask(e, n.toExecutor[0]);
    if e.id.Some? && NoStarter(e.slots) { ReceiveSlots(e, n.toExecutor[0]); }
  }

  lemma ReceiveHeard(n: Native, e: Keeper, nextTag: nat)
    requires n.toExecutor != [] && HeardExec(n, e) && NativeOk(n, e.owned, nextTag)
    ensures HeardExec(n.(toExecutor := n.toExecutor[1..]), Receive(e, n.toExecutor[0]))
  {
    hide Truth; hide NamesNew; hide Receive; hide NativeOk; hide TurnTold;
    var m := n.(toExecutor := n.toExecutor[1..]);
    ReceiveTold(n, e, nextTag);
    ReceiveNames(n, e);
    TruthTail(n, n.toExecutor);
    SameThreads(n, m);
    SameRunning(n, m, m.toExecutor);
  }

  /** A native step that adds to the executor's connection. */
  lemma NativeHeard(n: Native, m: Native, e: Keeper)
    requires HeardExec(n, e) && KeepsTracks(n, m, n.toExecutor, m.toExecutor) && NamesNew(m, e) && n.threads.Keys <= m.threads.Keys
    ensures HeardExec(m, e)
  {
    hide Truth; hide Tracks; hide NamesNew;
  }

  /** Steps that leave connection, threads, task and turn alone. */
  lemma QuietHeard(s: State, a: Action)
    requires HeardExec(s.native, s.exec) && Enabled(s, a)
    requires !a.NativeServes? && !a.TurnEnds? && !a.ThreadCloses? && !a.ExecutorReceives?
    ensures HeardExec(Step(s, a).native, Step(s, a).exec)
  {
    hide Truth; hide Tracks; hide NoStarter; hide Running; hide Notice;
    var n, e, m, e' := s.native, s.exec, Step(s, a).native, Step(s, a).exec;
    assert m.threads == n.threads && m.toExecutor == n.toExecutor && e'.id == e.id && e'.turn == e.turn && e'.owned == e.owned;
    SameThreads(n, m);
    SameRunning(n, m, n.toExecutor);
    if e.id.Some? && NoStarter(e.slots) { SlotsStay(s, a); }
    if OwnsThreads(n, e) { assert OwnsThreads(m, e'); }
  }

  lemma NextHeardExec(s: State, a: Action)
    requires Inv(s) && HeardExec(s.native, s.exec)
    ensures HeardExec(Next(s, a).native, Next(s, a).exec)
  {
    hide PhaseOk; hide NativeOk; hide ExecOk; hide WatchOk; hide HeardExec; hide Serve; hide Finish; hide Closes; hide Receive; hide KeepsTracks;
    var n, e := s.native, s.exec;
    if Enabled(s, a) {
      if a.NativeServes? {
        ServeTracks(n, a.name, a.kind);
        HeardNames(n, e);
        ServeNames(n, a.name, a.kind, e);
        NativeHeard(n, Step(s, a).native, e);
      } else if a.TurnEnds? || a.ThreadCloses? {
        EndsHeard(s, a);
      } else if a.ExecutorReceives? {
        ReceiveHeard(n, e, s.nextTag);
      } else {
        QuietHeard(s, a);
      }
    }
  }

  lemma HeardNames(n: Native, e: Keeper)
    requires HeardExec(n, e)
    ensures NamesNew(n, e)
  {
  }

  lemma EndsHeard(s: State, a: Action)
    requires HeardExec(s.native, s.exec) && Enabled(s, a) && (a.TurnEnds? || a.ThreadCloses?)
    ensures HeardExec(Step(s, a).native, s.exec)
  {
    hide HeardExec; hide KeepsTracks; hide NamesNew;
    var n, m := s.native, Step(s, a).native;
    HeardNames(n, s.exec);
    if a.TurnEnds? { FinishTracks(n, a.thread); } else { CloseTracks(n, a.thread); }
    ItemNames(n, m, s.exec, m.toExecutor[|n.toExecutor|]);
    NativeHeard(n, m, s.exec);
  }

  lemma {:induction false} HeardExecThroughout(s0: State, actions: seq<Action>)
    requires Init(s0)
    ensures HeardExec(Run(s0, actions).native, Run(s0, actions).exec)
    decreases |actions|
  {
    if actions == [] {
      assert forall t :: Tracks(s0.native, [], true, t);
      assert s0.exec.id.Some? ==> NoStarter(s0.exec.slots);
    } else {
      hide HeardExec; hide Next;
      var shorter := actions[..|actions| - 1];
      HeardExecThroughout(s0, shorter);
      Reachable(s0, shorter);
      NextHeardExec(Run(s0, shorter), actions[|actions| - 1]);
    }
  }

  // ----- the turn copied before the read -----

  ghost predicate NoStartOf(inbox: seq<Request>, t: nat) {
    forall i :: 0 <= i < |inbox| && inbox[i].StartTurn? ==> inbox[i].thread != t
  }

  /** Nothing that starts a turn of t waits at native, and nothing unread says one started. */
  ghost predicate Quiet(n: Native, t: nat) { NoStartOf(n.inbox, t) && Told(true, n.toExecutor, t) }

  /** A terminal turn that verifyIdle copies here is the latest there is or will be while it waits. */
  ghost predicate QuietCopy(s: State) {
    s.exec.id.Some? && TurnDone(s.exec) ==> Quiet(s.native, s.exec.id.value)
  }

  ghost predicate Copies(s0: State, actions: seq<Action>, k: nat) {
    k < |actions| && actions[k] == CopyState && Enabled(Run(s0, actions[..k]), CopyState)
  }

  ghost predicate LastCopy(s0: State, actions: seq<Action>, k: nat) {
    Copies(s0, actions, k) && forall j :: k < j < |actions| ==> !Copies(s0, actions, j)
  }

  /** The last copy of a run was quiet. */
  ghost predicate QuietAtCopy(s0: State, actions: seq<Action>) {
    forall k: nat :: k < |actions| && LastCopy(s0, actions, k) ==> QuietCopy(Run(s0, actions[..k]))
  }

  /** The task does not run and nothing that starts it waits. */
  ghost predicate CalmTask(n: Native, t: nat) { NoStartOf(n.inbox, t) && !Running(n, t) }

  ghost predicate CacheOk(n: Native, e: Keeper) {
    && (e.phase.Asking? && e.phase.cached.Some? && e.phase.cached.value.terminal ==> CalmTask(n, e.phase.thread))
    && (e.phase.Verified? && e.phase.task.Some? && e.phase.evidence.CachedTerminal? ==> CalmTask(n, e.phase.task.value))
  }

  lemma CopyCalm(s: State)
    requires HeardExec(s.native, s.exec) && Enabled(s, CopyState) && QuietCopy(s)
    ensures CacheOk(Step(s, CopyState).native, Step(s, CopyState).exec)
  {
    hide Truth; hide NamesNew;
    var m := Step(s, CopyState).native;
    assert m.threads == s.native.threads;
  }

  lemma ServeCalmTask(n: Native, name: nat, kind: Kind, t: nat)
    requires n.inbox != [] && CalmTask(n, t)
    ensures CalmTask(Serve(n, name, kind), t)
  {
    var m := Serve(n, name, kind);
    assert m.inbox == n.inbox[1..];
    assert forall i :: 0 <= i < |m.inbox| ==> m.inbox[i] == n.inbox[i + 1];
  }

  /** From n to m nothing that is calm starts. */
  lemma CacheStays(n: Native, m: Native, e: Keeper)
    requires CacheOk(n, e) && forall t :: CalmTask(n, t) ==> CalmTask(m, t)
    ensures CacheOk(m, e)
  {
  }

  lemma ReceiveCache(n: Native, e: Keeper, item: Item)
    requires CacheOk(n, e)
    ensures CacheOk(n, Receive(e, item))
  {
    hide CalmTask; hide Receive;
    if item.Status? { StatusPhase(e, item); } else { OtherPhase(e, item); }
  }

  /** An answer turns a question into a verdict on its own thread, on the cached turn if that is terminal. */
  lemma StatusPhase(e: Keeper, item: Item)
    requires item.Status?
    ensures var p := Receive(e, item).phase;
      p == e.phase
      || (!p.Asking? && (p.Verified? && p.evidence.CachedTerminal? ==>
            e.phase.Asking? && e.phase.cached.Some? && e.phase.cached.value.terminal && p.task == Some(e.phase.thread)))
  {
  }

  lemma OtherPhase(e: Keeper, item: Item)
    requires !item.Status?
    ensures var p := Receive(e, item).phase; p == e.phase || (!p.Asking? && (p.Verified? ==> !p.evidence.CachedTerminal?))
  {
  }

  lemma NativeCalm(s: State, a: Action)
    requires CacheOk(s.native, s.exec) && Enabled(s, a) && (a.NativeServes? || a.TurnEnds?)
    ensures CacheOk(Step(s, a).native, s.exec)
  {
    hide CalmTask; hide CacheOk;
    var n, m := s.native, Step(s, a).native;
    forall t | CalmTask(n, t) ensures CalmTask(m, t) {
      if a.NativeServes? { ServeCalmTask(n, a.name, a.kind, t); } else { FinishCalmTask(n, a.thread, t); }
    }
    CacheStays(n, m, s.exec);
  }

  lemma FinishCalmTask(n: Native, done: nat, t: nat)
    requires Running(n, done) && CalmTask(n, t)
    ensures CalmTask(Finish(n, done), t)
  {
  }

  lemma NextCalm(s: State, a: Action)
    requires Inv(s) && CacheOk(s.native, s.exec) && !(a == CopyState && Enabled(s, CopyState))
    ensures CacheOk(Next(s, a).native, Next(s, a).exec)
  {
    hide NativeOk; hide ExecOk; hide WatchOk; hide Receive; hide Serve; hide Finish; hide Notice; hide Question; hide CalmTask;
    if Enabled(s, a) {
      var n, e, m := s.native, s.exec, Step(s, a).native;
      if a.NativeServes? || a.TurnEnds? {
        NativeCalm(s, a);
      } else if a.ExecutorReceives? {
        SameCalm(n, m);
        CacheStays(n, m, e);
        ReceiveCache(m, e, n.toExecutor[0]);
      } else if !a.SendStart? && !a.SendTurn? {
        PostCalm(s, a);
        CacheStays(n, m, e);
      }
    }
  }

  lemma SameCalm(n: Native, m: Native)
    requires m.threads == n.threads && (m.inbox == n.inbox || (m.inbox != [] && m.inbox == n.inbox + [m.inbox[|m.inbox| - 1]]
                                                              && !m.inbox[|m.inbox| - 1].StartTurn?))
    ensures forall t :: CalmTask(n, t) ==> CalmTask(m, t)
  {
  }

  lemma PostCalm(s: State, a: Action)
    requires Enabled(s, a) && !a.NativeServes? && !a.TurnEnds? && !a.ExecutorReceives? && !a.SendStart? && !a.SendTurn? && !a.CopyState?
    ensures forall t :: CalmTask(s.native, t) ==> CalmTask(Step(s, a).native, t)
  {
    hide CalmTask; hide Notice;
    SameCalm(s.native, Step(s, a).native);
  }

  lemma {:induction false} CalmThroughout(s0: State, actions: seq<Action>)
    requires Init(s0) && QuietAtCopy(s0, actions)
    ensures CacheOk(Run(s0, actions).native, Run(s0, actions).exec)
    decreases |actions|
  {
    if actions != [] {
      hide Init; hide Inv; hide HeardExec; hide CacheOk; hide Next; hide QuietCopy; hide Enabled;
      var n := |actions| - 1;
      var shorter, a := actions[..n], actions[n];
      var s := Run(s0, shorter);
      Reachable(s0, shorter);
      HeardExecThroughout(s0, shorter);
      if a == CopyState && Enabled(s, CopyState) {
        assert LastCopy(s0, actions, n);
        CopyCalm(s);
        NextIsStep(s, a);
      } else {
        ShorterCopy(s0, actions);
        CalmThroughout(s0, shorter);
        NextCalm(s, a);
      }
    }
  }

  lemma NextIsStep(s: State, a: Action)
    requires Enabled(s, a)
    ensures Next(s, a) == Step(s, a)
  {
  }

  lemma ShorterCopy(s0: State, actions: seq<Action>)
    requires actions != [] && !Copies(s0, actions, |actions| - 1) && QuietAtCopy(s0, actions)
    ensures QuietAtCopy(s0, actions[..|actions| - 1])
  {
    hide Run; hide Enabled; hide QuietCopy;
    var n := |actions| - 1;
    var shorter := actions[..n];
    assert forall k :: 0 <= k < n ==> shorter[..k] == actions[..k] && shorter[k] == actions[k];
    assert forall k :: 0 <= k < n ==> Copies(s0, shorter, k) == Copies(s0, actions, k);
    forall k: nat | k < |shorter| && LastCopy(s0, shorter, k) ensures QuietCopy(Run(s0, shorter[..k])) {
      assert LastCopy(s0, actions, k);
    }
  }

  // ----- nothing runs at release -----

  /** What runs when the executor releases native: on idle, notLoaded or a terminal latest turn its task does not
      run, and on systemError with a cached terminal turn it does not if the copy of that turn was quiet. Whatever
      runs is a task the executor owned besides, and with no such task nothing runs. */
  lemma NothingRunsAtRelease(s0: State, actions: seq<Action>)
    requires Init(s0) && Enabled(Run(s0, actions), Release)
    requires Run(s0, actions).exec.phase.evidence.CachedTerminal? ==> QuietAtCopy(s0, actions)
    ensures var s := Run(s0, actions);
      && (forall t :: t in s.native.threads && Running(s.native, t) ==> t in s.exec.owned && s.exec.id.Some? && t != s.exec.id.value)
      && (s.exec.id.Some? && s.exec.owned <= {s.exec.id.value} ==> NoneRunning(s.native))
      && (s.exec.id.None? ==> NoneRunning(s.native))
  {
    hide QuietAtCopy; hide Run; hide Init;
    var s := Run(s0, actions);
    ExecutorReleasesIdleTask(s0, actions);
    Reachable(s0, actions);
    if s.exec.phase.evidence.CachedTerminal? { CalmThroughout(s0, actions); }
    OnlyOwnedRun(s);
  }

  lemma OnlyOwnedRun(s: State)
    requires Inv(s)
    ensures forall t :: t in s.native.threads && Running(s.native, t) ==> t in s.exec.owned
  {
  }

  // ----- runs in which nobody gives up -----

  /** Every turn/start native has not served, and every reply the executor has not read, belongs to a request that
      still waits for it; a start is told right before its reply. */
  ghost predicate Outstanding(inbox: seq<Request>, box: seq<Item>, slots: map<nat, Slot>) {
    && (forall i :: 0 <= i < |inbox| && inbox[i].StartTurn? ==> Waits(slots, inbox[i].slot))
    && (forall i :: 0 <= i < |box| && box[i].TurnReply? ==> Waits(slots, box[i].slot))
    && (forall i, j :: 0 <= i < j < |inbox| && inbox[i].StartTurn? && inbox[j].StartTurn? ==> inbox[i].slot != inbox[j].slot)
    && (forall i, j :: 0 <= i < j < |box| && box[i].TurnReply? && box[j].TurnReply? ==> box[i].slot != box[j].slot)
    && (forall i, j :: 0 <= i < |inbox| && 0 <= j < |box| && inbox[i].StartTurn? && box[j].TurnReply? ==> inbox[i].slot != box[j].slot)
    && (forall i :: 0 <= i < |box| && box[i].Started? ==> HasReply(box, i))
  }

  ghost predicate HasReply(box: seq<Item>, i: nat) { i + 1 < |box| && box[i + 1].TurnReply? }

  ghost predicate Waits(slots: map<nat, Slot>, slot: nat) { slot in slots && slots[slot].TurnSent? }

  /** A request gives up on its turn/start while native has not served it or its reply is still unread. */
  ghost predicate GivesUp(s: State, a: Action) {
    a.Settle? && Waits(s.exec.slots, a.slot) &&
    ((exists i :: 0 <= i < |s.native.inbox| && s.native.inbox[i].StartTurn? && s.native.inbox[i].slot == a.slot)
     || (exists i :: 0 <= i < |s.native.toExecutor| && s.native.toExecutor[i].TurnReply? && s.native.toExecutor[i].slot == a.slot))
  }

  ghost predicate NoTurnGivenUp(s0: State, actions: seq<Action>) {
    forall k :: 0 <= k < |actions| ==> !GivesUp(Run(s0, actions[..k]), actions[k])
  }

  lemma NothingOutstanding(inbox: seq<Request>, box: seq<Item>)
    requires Outstanding(inbox, box, map[])
    ensures NoStart(inbox) && forall i :: 0 <= i < |box| ==> !box[i].Started? && !box[i].TurnReply?
  {
    assert forall slot :: !Waits(map[], slot);
    assert forall i :: 0 <= i < |box| ==> !box[i].TurnReply?;
    assert forall i :: 0 <= i < |box| ==> !HasReply(box, i);
  }

  /** One more item that is neither a start nor a turn's reply. */
  lemma PlainItem(inbox: seq<Request>, box: seq<Item>, slots: map<nat, Slot>, item: Item)
    requires Outstanding(inbox, box, slots) && !item.Started? && !item.TurnReply?
    ensures Outstanding(inbox, box + [item], slots)
  {
  }

  lemma ServedHead(inbox: seq<Request>, box: seq<Item>, slots: map<nat, Slot>)
    requires inbox != [] && Outstanding(inbox, box, slots)
    ensures Outstanding(inbox[1..], box, slots)
    ensures inbox[0].StartTurn? ==> forall t, k :: Outstanding(inbox[1..], box + [Started(t, k), TurnReply(inbox[0].slot, t, k)], slots)
  {
    var rest := inbox[1..];
    assert forall i :: 0 <= i < |rest| ==> rest[i] == inbox[i + 1];
    if inbox[0].StartTurn? {
      forall t, k ensures Outstanding(rest, box + [Started(t, k), TurnReply(inbox[0].slot, t, k)], slots) {
        StartReported(rest, box, slots, inbox[0].slot, t, k);
      }
    }
  }

  lemma StartReported(inbox: seq<Request>, box: seq<Item>, slots: map<nat, Slot>, slot: nat, t: nat, k: nat)
    requires Outstanding(inbox, box, slots) && Waits(slots, slot)
    requires forall i :: 0 <= i < |inbox| && inbox[i].StartTurn? ==> inbox[i].slot != slot
    requires forall i :: 0 <= i < |box| && box[i].TurnReply? ==> box[i].slot != slot
    ensures Outstanding(inbox, box + [Started(t, k), TurnReply(slot, t, k)], slots)
  {
    var all := box + [Started(t, k), TurnReply(slot, t, k)];
    assert forall i :: 0 <= i < |all| && all[i].TurnReply? ==> i == |box| + 1 || (i < |box| && all[i] == box[i]);
  }

  lemma ServeOutstanding(n: Native, name: nat, kind: Kind, slots: map<nat, Slot>)
    requires n.inbox != [] && Outstanding(n.inbox, n.toExecutor, slots)
    ensures var m := Serve(n, name, kind); Outstanding(m.inbox, m.toExecutor, slots)
  {
    hide Outstanding;
    var m, head := Serve(n, name, kind), n.inbox[0];
    ServedHead(n.inbox, n.toExecutor, slots);
    if m.toExecutor != n.toExecutor && !head.StartTurn? {
      PlainItem(n.inbox[1..], n.toExecutor, slots, m.toExecutor[|n.toExecutor|]);
    }
  }

  /** Slots may change as long as the waiting ones stay. */
  lemma SlotsChange(inbox: seq<Request>, box: seq<Item>, slots: map<nat, Slot>, next: map<nat, Slot>)
    requires Outstanding(inbox, box, slots)
    requires forall i :: 0 <= i < |inbox| && inbox[i].StartTurn? && Waits(slots, inbox[i].slot) ==> Waits(next, inbox[i].slot)
    requires forall i :: 0 <= i < |box| && box[i].TurnReply? && Waits(slots, box[i].slot) ==> Waits(next, box[i].slot)
    ensures Outstanding(inbox, box, next)
  {
  }

  lemma PostedOutstanding(inbox: seq<Request>, box: seq<Item>, slots: map<nat, Slot>, r: Request)
    requires Outstanding(inbox, box, slots) && !r.StartTurn?
    ensures Outstanding(inbox + [r], box, slots)
  {
  }

  lemma TurnPosted(inbox: seq<Request>, box: seq<Item>, slots: map<nat, Slot>, t: nat, slot: nat)
    requires Outstanding(inbox, box, slots) && !Waits(slots, slot)
    ensures Outstanding(inbox + [StartTurn(t, slot)], box, slots[slot := TurnSent])
  {
    SlotsChange(inbox, box, slots, slots[slot := TurnSent]);
    assert forall i :: 0 <= i < |inbox| && inbox[i].StartTurn? ==> inbox[i].slot != slot;
    assert forall i :: 0 <= i < |box| && box[i].TurnReply? ==> box[i].slot != slot;
  }

  /** Without its first item; no other request or reply has the slot of that item, if it is a reply. */
  lemma OutstandingRest(inbox: seq<Request>, box: seq<Item>, slots: map<nat, Slot>)
    requires box != [] && Outstanding(inbox, box, slots)
    ensures Outstanding(inbox, box[1..], slots)
    ensures box[0].TurnReply? ==>
      && (forall i :: 0 <= i < |inbox| && inbox[i].StartTurn? ==> inbox[i].slot != box[0].slot)
      && (forall i :: 0 <= i < |box[1..]| && box[1..][i].TurnReply? ==> box[1..][i].slot != box[0].slot)
  {
    var rest := box[1..];
    assert forall i :: 0 <= i < |rest| ==> rest[i] == box[i + 1];
  }

  lemma StillWaits(e: Keeper, item: Item, slot: nat)
    requires Waits(e.slots, slot) && (item.TurnReply? ==> item.slot != slot)
    ensures Waits(Receive(e, item).slots, slot)
  {
  }

  lemma ReceiveOutstanding(inbox: seq<Request>, box: seq<Item>, e: Keeper)
    requires box != [] && Outstanding(inbox, box, e.slots)
    ensures Outstanding(inbox, box[1..], Receive(e, box[0]).slots)
  {
    hide Outstanding; hide Receive; hide Waits;
    var rest, next := box[1..], Receive(e, box[0]).slots;
    OutstandingRest(inbox, box, e.slots);
    forall i | 0 <= i < |inbox| && inbox[i].StartTurn? && Waits(e.slots, inbox[i].slot) ensures Waits(next, inbox[i].slot) {
      StillWaits(e, box[0], inbox[i].slot);
    }
    forall i | 0 <= i < |rest| && rest[i].TurnReply? && Waits(e.slots, rest[i].slot) ensures Waits(next, rest[i].slot) {
      StillWaits(e, box[0], rest[i].slot);
    }
    SlotsChange(inbox, rest, e.slots, next);
  }

  ghost predicate PatientOk(n: Native, e: Keeper) {
    e.alive ==> Outstanding(n.inbox, n.toExecutor, e.slots)
  }

  /** Requests that leave or change state while nothing of theirs is outstanding. */
  lemma RequestPatient(s: State, a: Action)
    requires PatientOk(s.native, s.exec) && Enabled(s, a) && !GivesUp(s, a)
    requires a.Admit? || a.CheckStart? || a.Reopen? || a.MarkActive? || a.Settle?
    ensures PatientOk(Step(s, a).native, Step(s, a).exec)
  {
    var e, e' := s.exec, Step(s, a).exec;
    assert forall slot :: Waits(e.slots, slot) && !Waits(e'.slots, slot) ==> a.Settle? && slot == a.slot;
    hide Outstanding;
    SlotsChange(s.native.inbox, s.native.toExecutor, e.slots, e'.slots);
  }

  lemma SendPatient(s: State, a: Action)
    requires PatientOk(s.native, s.exec) && Enabled(s, a) && (a.SendStart? || a.SendTurn?)
    ensures PatientOk(Step(s, a).native, Step(s, a).exec)
  {
    hide Outstanding;
    var n, e := s.native, s.exec;
    if a.SendTurn? {
      TurnPosted(n.inbox, n.toExecutor, e.slots, e.id.value, a.slot);
    } else {
      var next := e.slots[a.slot := StartSent];
      assert forall slot :: Waits(next, slot) <==> Waits(e.slots, slot);
      SlotsChange(n.inbox, n.toExecutor, e.slots, next);
      PostedOutstanding(n.inbox, n.toExecutor, next, StartThread(a.slot));
    }
  }

  lemma ConnectionPatient(s: State, a: Action)
    requires PatientOk(s.native, s.exec) && Enabled(s, a)
    requires a.NativeServes? || a.TurnEnds? || a.ThreadCloses? || a.ExecutorReceives?
    ensures PatientOk(Step(s, a).native, Step(s, a).exec)
  {
    hide Outstanding; hide Serve; hide Receive;
    var n, e := s.native, s.exec;
    if e.alive {
      if a.NativeServes? {
        ServeOutstanding(n, a.name, a.kind, e.slots);
      } else if a.ExecutorReceives? {
        ReceiveOutstanding(n.inbox, n.toExecutor, e);
      } else {
        PlainItem(n.inbox, n.toExecutor, e.slots, if a.TurnEnds? then Completed(a.thread, |n.threads[a.thread]| - 1) else Closed(a.thread));
      }
    }
  }

  /** Every other step at most posts a question. */
  lemma QuestionPatient(s: State, a: Action)
    requires PatientOk(s.native, s.exec) && Enabled(s, a)
    requires !a.NativeServes? && !a.TurnEnds? && !a.ThreadCloses? && !a.ExecutorReceives? && !a.SendStart? && !a.SendTurn?
    requires !a.Admit? && !a.CheckStart? && !a.Reopen? && !a.MarkActive? && !a.Settle?
    ensures PatientOk(Step(s, a).native, Step(s, a).exec)
  {
    hide Outstanding; hide Notice;
    var n, e, m := s.native, s.exec, Step(s, a).native;
    if e.alive && m.inbox != n.inbox {
      PostedOutstanding(n.inbox, n.toExecutor, e.slots, m.inbox[|n.inbox|]);
    }
  }

  lemma NextPatient(s: State, a: Action)
    requires PatientOk(s.native, s.exec) && !GivesUp(s, a)
    ensures PatientOk(Next(s, a).native, Next(s, a).exec)
  {
    hide PatientOk; hide GivesUp; hide Step;
    if Enabled(s, a) {
      if a.NativeServes? || a.TurnEnds? || a.ThreadCloses? || a.ExecutorReceives? {
        ConnectionPatient(s, a);
      } else if a.SendStart? || a.SendTurn? {
        SendPatient(s, a);
      } else if a.Admit? || a.CheckStart? || a.Reopen? || a.MarkActive? || a.Settle? {
        RequestPatient(s, a);
      } else {
        QuestionPatient(s, a);
      }
    }
  }

  /** While no request gives up on a turn/start, each that is unserved or unanswered still has its request. */
  lemma {:induction false} PatientThroughout(s0: State, actions: seq<Action>)
    requires Init(s0) && NoTurnGivenUp(s0, actions)
    ensures PatientOk(Run(s0, actions).native, Run(s0, actions).exec)
    decreases |actions|
  {
    if actions != [] {
      hide PatientOk; hide GivesUp; hide Next; hide Init;
      var n := |actions| - 1;
      var shorter := actions[..n];
      assert forall k :: 0 <= k < n ==> shorter[..k] == actions[..k] && shorter[k] == actions[k];
      PatientThroughout(s0, shorter);
      assert !GivesUp(Run(s0, actions[..n]), actions[n]);
      NextPatient(Run(s0, shorter), actions[n]);
    }
  }

  /** So every copy of such a run is quiet. */
  lemma PatientCopies(s0: State, actions: seq<Action>)
    requires Init(s0) && NoTurnGivenUp(s0, actions)
    ensures QuietAtCopy(s0, actions)
  {
    hide GivesUp; hide Run; hide Init; hide QuietCopy;
    forall k: nat | k < |actions| && LastCopy(s0, actions, k) ensures QuietCopy(Run(s0, actions[..k])) {
      var before := actions[..k];
      assert forall j :: 0 <= j < k ==> before[..j] == actions[..j] && before[j] == actions[j];
      PatientThroughout(s0, before);
      Reachable(s0, before);
      PatientCopy(Run(s0, before));
    }
  }

  lemma PatientCopy(s: State)
    requires Inv(s) && PatientOk(s.native, s.exec) && Enabled(s, CopyState)
    ensures QuietCopy(s)
  {
    hide Outstanding;
    NothingOutstanding(s.native.inbox, s.native.toExecutor);
    if s.exec.id.Some? { ToldStays(s.native.toExecutor, s.exec.id.value); }
  }

  /** With one thread/start at a time and no turn/start given up, nothing runs at release on any evidence. */
  lemma PatientRunsNothing(s0: State, actions: seq<Action>)
    requires Init(s0) && OneStartThroughout(s0, actions) && NoTurnGivenUp(s0, actions) && Enabled(Run(s0, actions), Release)
    ensures NoneRunning(Run(s0, actions).native)
  {
    hide OneStartThroughout; hide NoTurnGivenUp; hide Run; hide Init; hide QuietAtCopy;
    PatientCopies(s0, actions);
    NothingRunsAtRelease(s0, actions);
    OwnsOneThroughout(s0, actions);
  }
}

/** Where the evidence is too old: native answers systemError while a turn the executor never heard of runs. */
module LifetimeLimits {
  import opened Common
  import opened Lifetime
  import opened LifetimeSafety

  ghost function Fresh(): State {
    State(Native(true, [], map[0 := []], {0}, [], []),
          Keeper(true, Some(0), None, map[], false, false, false, false, Resting, {0}),
          Guard(None, false, false, Watching), 0, false)
  }

  ghost function Done(): TurnRef { TurnRef(0, 0, true) }

  /** The executor heard the first turn end. */
  ghost function Heard(): State {
    var s := Fresh();
    s.(native := Native(true, [], map[0 := [true]], {0}, [], [Started(0, 0), Completed(0, 0)]),
       exec := s.exec.(turn := Some(Done()), settled := true))
  }

  /** A second turn was sent, its caller timed out, and Retire fenced and asked. */
  ghost function Asked(): State {
    var s := Heard();
    s.(native := s.native.(inbox := [StartTurn(0, 1), ReadThread(0, 0, Executor)]),
       exec := s.exec.(retiring := true, phase := Asking(0, 0, Some(Done()))), nextTag := 1)
  }

  lemma Begin(s: State) returns (actions: seq<Action>)
    ensures Run(s, actions) == s
  {
    actions := [];
  }

  /** One more action of a run that has reached t. */
  lemma Then(s: State, actions: seq<Action>, t: State, a: Action) returns (longer: seq<Action>, u: State)
    requires Run(s, actions) == t && Enabled(t, a)
    ensures u == Step(t, a) && Run(s, longer) == u
  {
    longer, u := actions + [a], Step(t, a);
    assert longer[..|actions|] == actions;
  }

  lemma Receives(s: State, actions: seq<Action>, t: State) returns (longer: seq<Action>, u: State)
    requires Run(s, actions) == t && t.native.alive && t.exec.alive && t.native.toExecutor != []
    ensures u == t.(native := t.native.(toExecutor := t.native.toExecutor[1..]), exec := Receive(t.exec, t.native.toExecutor[0]))
    ensures Run(s, longer) == u
  {
    hide Run; hide Receive;
    longer, u := Then(s, actions, t, ExecutorReceives);
  }

  lemma Serves(s: State, actions: seq<Action>, t: State, kind: Kind) returns (longer: seq<Action>, u: State)
    requires Run(s, actions) == t && t.native.alive && t.native.inbox != []
    ensures u == t.(native := Serve(t.native, 0, kind)) && Run(s, longer) == u
  {
    hide Run; hide Serve;
    longer, u := Then(s, actions, t, NativeServes(0, kind));
  }

  lemma {:induction false} RunAppend(s: State, xs: seq<Action>, ys: seq<Action>)
    ensures Run(s, xs + ys) == Run(Run(s, xs), ys)
    decreases |ys|
  {
    if ys == [] {
      assert xs + ys == xs;
    } else {
      var n := |ys| - 1;
      RunAppend(s, xs, ys[..n]);
      assert (xs + ys)[..|xs + ys| - 1] == xs + ys[..n];
    }
  }

  lemma FirstTurnRuns(s: State) returns (actions: seq<Action>)
    requires s == Fresh()
    ensures var t := Run(s, actions);
      t == s.(native := s.native.(threads := map[0 := [true]], toExecutor := [Started(0, 0), TurnReply(0, 0, 0), Completed(0, 0)],
                                  toGuardian := [Started(0, 0), Completed(0, 0)]),
              exec := s.exec.(slots := map[0 := TurnSent]))
  {
    hide Run;
    var t := s;
    actions := Begin(s);
    actions, t := Then(s, actions, t, Admit(0));
    actions, t := Then(s, actions, t, SendTurn(0));
    actions, t := Serves(s, actions, t, IdleKind);
    assert t.native.inbox == [] && t.native.threads[0] == [false];
    actions, t := Then(s, actions, t, TurnEnds(0));
    assert [false][0 := true] == [true];
    assert t.native.threads == map[0 := [true]];
  }

  lemma FirstTurnHeard(s: State) returns (actions: seq<Action>)
    requires s == Fresh().(native := Fresh().native.(threads := map[0 := [true]],
                             toExecutor := [Started(0, 0), TurnReply(0, 0, 0), Completed(0, 0)], toGuardian := [Started(0, 0), Completed(0, 0)]),
                           exec := Fresh().exec.(slots := map[0 := TurnSent]))
    ensures Run(s, actions) == Heard()
  {
    hide Run;
    var t := s;
    actions := Begin(s);
    actions, t := Receives(s, actions, t);
    assert t.native.toExecutor == [TurnReply(0, 0, 0), Completed(0, 0)];
    actions, t := Receives(s, actions, t);
    assert t.native.toExecutor == [Completed(0, 0)];
    assert t.exec.slots == map[0 := Answered];
    actions, t := Receives(s, actions, t);
    actions, t := Then(s, actions, t, MarkActive(0));
    assert t.exec.slots == map[0 := Finished];
    actions, t := Then(s, actions, t, Settle(0));
    assert t.exec.slots == map[];
  }

  lemma SecondTurnTimesOut(s: State) returns (actions: seq<Action>)
    requires s == Heard()
    ensures Run(s, actions) == Asked()
  {
    hide Run;
    var t := s;
    actions := Begin(s);
    actions, t := Then(s, actions, t, Admit(1));
    actions, t := Then(s, actions, t, SendTurn(1));
    actions, t := Then(s, actions, t, Settle(1));
    assert t.exec.slots == map[];
    actions, t := Then(s, actions, t, Fence);
    actions, t := Then(s, actions, t, CopyState);
  }

  /** Native served both: the second turn runs, and the read was answered with systemError. */
  ghost function ServedBoth(): State {
    var s := Asked();
    s.(native := Native(true, [], map[0 := [true, false]], {0}, [Started(0, 1), TurnReply(1, 0, 1), Status(0, 0, SystemErrorKind)],
                        [Started(0, 0), Completed(0, 0), Started(0, 1)]))
  }

  lemma SecondTurnServed(s: State) returns (actions: seq<Action>)
    requires s == Asked()
    ensures Run(s, actions) == ServedBoth()
  {
    hide Run; hide Step; hide Enabled; hide Receive;
    var t := s;
    actions := Begin(s);
    actions, t := Serves(s, actions, t, IdleKind);
    assert t.native.inbox == [ReadThread(0, 0, Executor)] && t.native.threads[0] == [true, false];
    actions, t := Serves(s, actions, t, SystemErrorKind);
    assert t.native.toExecutor == [Started(0, 1), TurnReply(1, 0, 1), Status(0, 0, SystemErrorKind)];
    assert t.native.threads == map[0 := [true, false]] && t.native.loaded == {0};
  }

  lemma SecondTurnRuns(s: State) returns (actions: seq<Action>)
    requires s == ServedBoth()
    ensures Run(s, actions).native.alive && Run(s, actions).exec.alive && Running(Run(s, actions).native, 0)
    ensures Run(s, actions).exec.phase == Verified(Some(0), CachedTerminal(Done()))
  {
    hide Run; hide Step; hide Enabled; hide Serve;
    var t := s;
    actions := Begin(s);
    actions, t := Receives(s, actions, t);
    assert t.native.toExecutor == [TurnReply(1, 0, 1), Status(0, 0, SystemErrorKind)];
    actions, t := Receives(s, actions, t);
    assert t.native.toExecutor == [Status(0, 0, SystemErrorKind)];
    actions, t := Receives(s, actions, t);
  }

  /** A cached terminal turn may be old: a turn/start given up before native served it runs at release. */
  lemma CachedTerminalMayBeOld() returns (s0: State, actions: seq<Action>)
    ensures Init(s0) && OneStartThroughout(s0, actions) && Enabled(Run(s0, actions), Release)
    ensures Run(s0, actions).exec.phase.evidence.CachedTerminal? && Running(Run(s0, actions).native, 0)
    ensures !NoTurnGivenUp(s0, actions)
  {
    s0 := Fresh();
    actions := FirstTurnRuns(s0);
    var more := FirstTurnHeard(Run(s0, actions));
    RunAppend(s0, actions, more);
    actions := actions + more;
    more := SecondTurnTimesOut(Run(s0, actions));
    RunAppend(s0, actions, more);
    actions := actions + more;
    more := SecondTurnServed(Run(s0, actions));
    RunAppend(s0, actions, more);
    actions := actions + more;
    more := SecondTurnRuns(Run(s0, actions));
    RunAppend(s0, actions, more);
    actions := actions + more;
    AdmittedStartsNothing(s0, actions);
    if NoTurnGivenUp(s0, actions) { PatientRunsNothing(s0, actions); }
  }

  // ----- from a copy that was not quiet -----

  ghost predicate NoCopies(actions: seq<Action>) { forall i :: 0 <= i < |actions| ==> actions[i] != CopyState }

  /** Native still has to answer the read and then runs t; nothing before that read carries its tag. */
  ghost predicate Unanswered(n: Native, t: nat, tag: nat) {
    && n.alive && t in n.threads && n.inbox != []
    && n.inbox[|n.inbox| - 1] == ReadThread(t, tag, Executor)
    && (forall i :: 0 <= i < |n.inbox| - 1 ==> !Tagged(n.inbox[i], tag))
    && (forall i :: 0 <= i < |n.toExecutor| ==> !Answers(n.toExecutor[i], tag))
    && (Running(n, t) || !NoStartOf(n.inbox, t))
  }

  ghost predicate AnsweredLast(n: Native, t: nat, tag: nat) {
    && n.alive && Running(n, t) && n.toExecutor != []
    && n.toExecutor[|n.toExecutor| - 1] == Status(tag, t, SystemErrorKind)
    && (forall i :: 0 <= i < |n.toExecutor| - 1 ==> !Answers(n.toExecutor[i], tag))
  }

  lemma ServeUnanswered(n: Native, t: nat, tag: nat)
    requires Unanswered(n, t, tag)
    ensures var m := Serve(n, 0, SystemErrorKind); if |n.inbox| == 1 then AnsweredLast(m, t, tag) else Unanswered(m, t, tag)
  {
    var m, head := Serve(n, 0, SystemErrorKind), n.inbox[0];
    assert m.inbox == n.inbox[1..];
    assert forall i :: 0 <= i < |m.inbox| ==> m.inbox[i] == n.inbox[i + 1];
    if !NoStartOf(n.inbox, t) && !(head.StartTurn? && head.thread == t) {
      var i :| 0 <= i < |n.inbox| && n.inbox[i].StartTurn? && n.inbox[i].thread == t;
      assert m.inbox[i - 1] == n.inbox[i];
    }
    assert forall i :: |n.toExecutor| <= i < |m.toExecutor| && Answers(m.toExecutor[i], tag) ==> Tagged(head, tag);
  }

  /** The first action, then the rest. */
  lemma FirstThen(s: State, a: Action, more: seq<Action>)
    requires Enabled(s, a)
    ensures Run(s, [a] + more) == Run(Step(s, a), more)
  {
    RunAppend(s, [a], more);
    assert [a][..0] == [];
    assert Run(s, [a]) == Next(Run(s, []), a);
  }

  /** Native serves its inbox, reporting systemError, and the task runs when it answers. */
  lemma {:induction false} ServeAll(s: State, t: nat, tag: nat) returns (more: seq<Action>)
    requires Unanswered(s.native, t, tag)
    ensures NoCopies(more) && AnsweredLast(Run(s, more).native, t, tag) && Run(s, more) == s.(native := Run(s, more).native)
    decreases |s.native.inbox|
  {
    hide Unanswered; hide AnsweredLast;
    var a := NativeServes(0, SystemErrorKind);
    ServeUnanswered(s.native, t, tag);
    Waiting(s.native, t, tag);
    var rest: seq<Action> := [];
    if |s.native.inbox| > 1 { rest := ServeAll(Step(s, a), t, tag); }
    FirstThen(s, a, rest);
    more := [a] + rest;
  }

  lemma Waiting(n: Native, t: nat, tag: nat)
    requires Unanswered(n, t, tag)
    ensures n.alive && n.inbox != []
  {
  }

  /** An executor without requests that reads up to the answer releases on the turn it copied. */
  lemma {:induction false} ReadAll(s: State, t: nat, tag: nat, cached: TurnRef) returns (more: seq<Action>)
    requires AnsweredLast(s.native, t, tag) && s.exec.alive && s.exec.slots == map[]
    requires s.exec.phase == Asking(tag, t, Some(cached)) && cached.terminal
    ensures var u := Run(s, more);
      NoCopies(more) && Enabled(u, Release) && u.exec.phase == Verified(Some(t), CachedTerminal(cached)) && Running(u.native, t)
    decreases |s.native.toExecutor|
  {
    var n := s.native;
    var u := Step(s, ExecutorReceives);
    ReadOne(s, t, tag, cached);
    var rest: seq<Action> := [];
    if |n.toExecutor| > 1 {
      assert forall i :: 0 <= i < |u.native.toExecutor| ==> u.native.toExecutor[i] == n.toExecutor[i + 1];
      rest := ReadAll(u, t, tag, cached);
    }
    hide Step; hide AnsweredLast;
    FirstThen(s, ExecutorReceives, rest);
    more := [ExecutorReceives] + rest;
  }

  lemma ReadOne(s: State, t: nat, tag: nat, cached: TurnRef)
    requires AnsweredLast(s.native, t, tag) && s.exec.alive && s.exec.slots == map[]
    requires s.exec.phase == Asking(tag, t, Some(cached)) && cached.terminal
    ensures var e := Receive(s.exec, s.native.toExecutor[0]);
      && e.alive && e.slots == map[]
      && e.phase == if |s.native.toExecutor| == 1 then Verified(Some(t), CachedTerminal(cached)) else s.exec.phase
  {
  }

  ghost predicate ReleasesOn(s0: State, actions: seq<Action>, k: nat) {
    LastCopy(s0, actions, k) && Enabled(Run(s0, actions), Release) && Run(s0, actions).exec.phase.evidence.CachedTerminal?
  }

  ghost predicate TaskRuns(s: State) { s.exec.id.Some? && Running(s.native, s.exec.id.value) }

  lemma CopyUnanswered(s: State)
    requires Inv(s) && HeardExec(s.native, s.exec) && Enabled(s, CopyState) && !QuietCopy(s)
    ensures var u := Step(s, CopyState); Unanswered(u.native, s.exec.id.value, s.nextTag)
  {
    hide Truth; hide NamesNew; hide PhaseOk; hide WatchOk; hide ExecOk;
    var n, m, t := s.native, Step(s, CopyState).native, s.exec.id.value;
    assert m.inbox == n.inbox + [ReadThread(t, s.nextTag, Executor)];
    if !NoStartOf(n.inbox, t) {
      var i :| 0 <= i < |n.inbox| && n.inbox[i].StartTurn? && n.inbox[i].thread == t;
      assert m.inbox[i] == n.inbox[i];
    }
  }

  lemma LastCopyHere(s0: State, before: seq<Action>, more: seq<Action>)
    requires Enabled(Run(s0, before), CopyState) && NoCopies(more)
    ensures LastCopy(s0, before + [CopyState] + more, |before|)
    ensures Run(s0, before + [CopyState] + more) == Run(Step(Run(s0, before), CopyState), more)
  {
    hide Enabled; hide Step;
    var all := before + [CopyState] + more;
    assert all[..|before|] == before && all[|before|] == CopyState;
    forall j | |before| < j < |all| ensures !Copies(s0, all, j) {
      assert all[j] == more[j - |before| - 1];
    }
    RunAppend(s0, before + [CopyState], more);
    RunAppend(s0, before, [CopyState]);
    FirstThen(Run(s0, before), CopyState, []);
    assert [CopyState] + [] == [CopyState];
  }

  /** From every reachable copy of a terminal turn that is not quiet a run goes on to release while the task runs. */
  lemma UnquietCopyReleases(s0: State, before: seq<Action>) returns (actions: seq<Action>)
    requires Init(s0) && Enabled(Run(s0, before), CopyState) && !QuietCopy(Run(s0, before))
    ensures before <= actions && ReleasesOn(s0, actions, |before|) && TaskRuns(Run(s0, actions))
  {
    hide Run; hide Init; hide Inv; hide HeardExec; hide Unanswered; hide AnsweredLast;
    var s := Run(s0, before);
    Reachable(s0, before);
    HeardExecThroughout(s0, before);
    CopyUnanswered(s);
    CopyFenced(s);
    var u, t := Step(s, CopyState), s.exec.id.value;
    var serve := ServeAll(u, t, s.nextTag);
    var read := ReadAll(Run(u, serve), t, s.nextTag, s.exec.turn.value);
    RunAppend(u, serve, read);
    assert NoCopies(serve + read);
    LastCopyHere(s0, before, serve + read);
    actions := before + [CopyState] + (serve + read);
    Reachable(s0, actions);
    VerifiedTask(Run(s0, actions));
  }

  lemma CopyFenced(s: State)
    requires Inv(s) && Enabled(s, CopyState) && !QuietCopy(s)
    ensures s.exec.slots == map[] && s.exec.alive && s.exec.id.Some? && TurnDone(s.exec)
  {
  }

  lemma VerifiedTask(s: State)
    requires Inv(s) && s.exec.phase.Verified? && s.exec.phase.task.Some?
    ensures s.exec.id == s.exec.phase.task
  {
  }

  /** Exactly when a cached terminal turn is proof enough: the copy of it was quiet. Then no release that rests on
      the copy finds the task running, and from any other copy some release does. */
  lemma CachedTurnProvesIff(s0: State, before: seq<Action>)
    requires Init(s0) && Enabled(Run(s0, before), CopyState)
    ensures QuietCopy(Run(s0, before)) <==>
      forall actions :: before <= actions && ReleasesOn(s0, actions, |before|) ==> !TaskRuns(Run(s0, actions))
  {
    hide Run; hide Init; hide QuietCopy; hide TaskRuns; hide Enabled;
    if QuietCopy(Run(s0, before)) {
      forall actions | before <= actions && ReleasesOn(s0, actions, |before|) ensures !TaskRuns(Run(s0, actions)) {
        assert actions[..|before|] == before;
        OnlyLastCopy(s0, actions, |before|);
        QuietReleases(s0, actions);
      }
    } else {
      var actions := UnquietCopyReleases(s0, before);
    }
  }

  lemma OnlyLastCopy(s0: State, actions: seq<Action>, k: nat)
    requires LastCopy(s0, actions, k) && QuietCopy(Run(s0, actions[..k]))
    ensures QuietAtCopy(s0, actions)
  {
    hide Copies; hide QuietCopy; hide Run;
    CopiesInside(s0, actions, k);
    forall j: nat | j < |actions| && LastCopy(s0, actions, j) ensures QuietCopy(Run(s0, actions[..j])) {
      assert j == k;
    }
  }

  lemma CopiesInside(s0: State, actions: seq<Action>, k: nat)
    requires Copies(s0, actions, k)
    ensures k < |actions|
  {
  }

  lemma QuietReleases(s0: State, actions: seq<Action>)
    requires Init(s0) && QuietAtCopy(s0, actions) && Enabled(Run(s0, actions), Release)
    ensures !TaskRuns(Run(s0, actions))
  {
    hide Run; hide Init; hide QuietAtCopy;
    NothingRunsAtRelease(s0, actions);
  }

  // ----- from a connection lost while a completion is remembered -----

  /** The last reconnect of a run, after which the guardian heard nothing of its task. */
  ghost predicate LastReconnect(s0: State, actions: seq<Action>, k: nat) {
    && k < |actions| && Reconnects(Run(s0, actions[..k]), actions[k])
    && forall j :: k < j < |actions| ==> Quietly(Run(s0, actions[..j]), actions[j])
  }

  ghost predicate Quietly(s: State, a: Action) { !Reconnects(s, a) && !Speaks(s, a) }

  /** A release decided on a completion remembered across that reconnect. */
  ghost predicate DecidesAcross(s0: State, actions: seq<Action>, k: nat) {
    && LastReconnect(s0, actions, k)
    && Enabled(Run(s0, actions), GuardReleases) && Run(s0, actions).guard.watch.proof == TerminalSeen
  }

  ghost predicate BoundTaskRuns(s: State) { s.guard.task.Some? && Running(s.native, s.guard.task.value) }

  ghost predicate Silent(s: State, more: seq<Action>) {
    forall j :: 0 <= j < |more| ==> Quietly(Run(s, more[..j]), more[j])
  }

  lemma SilentCons(s: State, a: Action, more: seq<Action>)
    requires Enabled(s, a) && Quietly(s, a) && Silent(Step(s, a), more)
    ensures Silent(s, [a] + more)
  {
    hide Run; hide Enabled; hide Quietly; hide Step;
    var all := [a] + more;
    forall j | 0 <= j < |all| ensures Quietly(Run(s, all[..j]), all[j]) {
      if j == 0 {
        NoActions(s);
      } else {
        FirstThen(s, a, more[..j - 1]);
        assert all[..j] == [a] + more[..j - 1];
      }
    }
  }

  lemma NoActions(s: State)
    ensures Run(s, []) == s
  {
  }

  lemma SilentAppend(s: State, xs: seq<Action>, ys: seq<Action>)
    requires Silent(s, xs) && Silent(Run(s, xs), ys)
    ensures Silent(s, xs + ys)
  {
    hide Run; hide Quietly;
    var all := xs + ys;
    forall j | 0 <= j < |all| ensures Quietly(Run(s, all[..j]), all[j]) {
      if j < |xs| {
        assert all[..j] == xs[..j];
      } else {
        RunAppend(s, xs, ys[..j - |xs|]);
        assert all[..j] == xs + ys[..j - |xs|];
      }
    }
  }

  ghost predicate About(item: Item, t: nat) { (item.Started? || item.Completed?) && item.thread == t }

  /** The task runs, native still has to answer the guardian's read, and nothing before the answer is of the task. */
  ghost predicate Awaits(n: Native, t: nat, tag: nat) {
    && n.alive && Running(n, t) && n.inbox != []
    && n.inbox[|n.inbox| - 1] == ReadThread(t, tag, Guardian)
    && (forall i :: 0 <= i < |n.inbox| - 1 ==> !Tagged(n.inbox[i], tag))
    && (forall i :: 0 <= i < |n.toGuardian| ==> !Answers(n.toGuardian[i], tag) && !About(n.toGuardian[i], t))
  }

  ghost predicate GuardAnswered(n: Native, t: nat, tag: nat) {
    && n.alive && Running(n, t) && n.toGuardian != []
    && n.toGuardian[|n.toGuardian| - 1] == Status(tag, t, SystemErrorKind)
    && (forall i :: 0 <= i < |n.toGuardian| - 1 ==> !Answers(n.toGuardian[i], tag) && !About(n.toGuardian[i], t))
  }

  lemma ServeAwaits(n: Native, t: nat, tag: nat)
    requires Awaits(n, t, tag)
    ensures var m := Serve(n, 0, SystemErrorKind); if |n.inbox| == 1 then GuardAnswered(m, t, tag) else Awaits(m, t, tag)
  {
    var m, head := Serve(n, 0, SystemErrorKind), n.inbox[0];
    assert m.inbox == n.inbox[1..];
    assert forall i :: 0 <= i < |m.inbox| ==> m.inbox[i] == n.inbox[i + 1];
    assert forall i :: |n.toGuardian| <= i < |m.toGuardian| && Answers(m.toGuardian[i], tag) ==> Tagged(head, tag);
  }

  lemma AwaitsMeans(n: Native, t: nat, tag: nat)
    requires Awaits(n, t, tag)
    ensures n.alive && n.inbox != []
  {
  }

  /** Native serves its inbox, reporting systemError; the running task cannot start again, so nothing is told of it. */
  lemma {:induction false} GuardServeAll(s: State, t: nat, tag: nat) returns (more: seq<Action>)
    requires Awaits(s.native, t, tag)
    ensures Silent(s, more) && GuardAnswered(Run(s, more).native, t, tag) && Run(s, more) == s.(native := Run(s, more).native)
    decreases |s.native.inbox|
  {
    hide Awaits; hide GuardAnswered; hide Silent;
    var a := NativeServes(0, SystemErrorKind);
    ServeAwaits(s.native, t, tag);
    AwaitsMeans(s.native, t, tag);
    var rest: seq<Action> := [];
    if |s.native.inbox| > 1 { rest := GuardServeAll(Step(s, a), t, tag); } else { NothingSilent(Step(s, a)); }
    FirstThen(s, a, rest);
    SilentCons(s, a, rest);
    more := [a] + rest;
  }

  lemma NothingSilent(s: State)
    ensures Silent(s, [])
  {
  }

  /** A guardian that remembers a completion reads up to the answer and decides on it. */
  lemma {:induction false} GuardReadAll(s: State, t: nat, tag: nat) returns (more: seq<Action>)
    requires GuardAnswered(s.native, t, tag)
    requires s.guard.watch == Reading(tag, t) && s.guard.task == Some(t) && s.guard.terminal
    ensures var u := Run(s, more);
      Silent(s, more) && Enabled(u, GuardReleases) && u.guard.watch == Decided(Some(t), TerminalSeen) && BoundTaskRuns(u)
    decreases |s.native.toGuardian|
  {
    var n := s.native;
    var u := Step(s, GuardReceives);
    GuardReadOne(s, t, tag);
    var rest: seq<Action> := [];
    if |n.toGuardian| > 1 {
      assert forall i :: 0 <= i < |u.native.toGuardian| ==> u.native.toGuardian[i] == n.toGuardian[i + 1];
      rest := GuardReadAll(u, t, tag);
    } else {
      NothingSilent(u);
    }
    hide Step; hide GuardAnswered; hide Silent;
    FirstThen(s, GuardReceives, rest);
    SilentCons(s, GuardReceives, rest);
    more := [GuardReceives] + rest;
  }

  lemma GuardReadOne(s: State, t: nat, tag: nat)
    requires GuardAnswered(s.native, t, tag)
    requires s.guard.watch == Reading(tag, t) && s.guard.task == Some(t) && s.guard.terminal
    ensures var g := Notice(s.guard, s.native.toGuardian[0]);
      g.task == Some(t) && g.terminal && g.watch == if |s.native.toGuardian| == 1 then Decided(Some(t), TerminalSeen) else s.guard.watch
    ensures Quietly(s, GuardReceives)
  {
  }

  /** From here a guardian that remembers a completion of a running task, with nothing unread, releases native. */
  lemma ReleasesRunning(s: State, t: nat) returns (more: seq<Action>)
    requires Inv(s) && s.native.alive && Running(s.native, t) && s.native.toGuardian == []
    requires s.guard.task == Some(t) && s.guard.terminal && s.guard.watch == Watching
    ensures var u := Run(s, more);
      Silent(s, more) && Enabled(u, GuardReleases) && u.guard.watch == Decided(Some(t), TerminalSeen) && BoundTaskRuns(u)
  {
    hide Run; hide Inv; hide Silent; hide Awaits; hide GuardAnswered; hide BoundTaskRuns;
    var dead := Step(s, KeeperDies);
    var asks := Step(dead, GuardAsks);
    AsksInVain(s, t);
    var serve := GuardServeAll(asks, t, s.nextTag);
    var read := GuardReadAll(Run(asks, serve), t, s.nextTag);
    RunAppend(asks, serve, read);
    SilentAppend(asks, serve, read);
    FirstThen(dead, GuardAsks, serve + read);
    SilentCons(dead, GuardAsks, serve + read);
    FirstThen(s, KeeperDies, [GuardAsks] + (serve + read));
    SilentCons(s, KeeperDies, [GuardAsks] + (serve + read));
    more := [KeeperDies] + ([GuardAsks] + (serve + read));
  }

  lemma AsksInVain(s: State, t: nat)
    requires Inv(s) && s.native.alive && Running(s.native, t) && s.native.toGuardian == []
    requires s.guard.task == Some(t) && s.guard.watch == Watching
    ensures Awaits(Step(Step(s, KeeperDies), GuardAsks).native, t, s.nextTag)
  {
    hide PhaseOk; hide WatchOk; hide ExecOk;
  }

  lemma LastReconnectHere(s0: State, before: seq<Action>, more: seq<Action>)
    requires Enabled(Run(s0, before), GuardReconnects) && Silent(Step(Run(s0, before), GuardReconnects), more)
    ensures LastReconnect(s0, before + [GuardReconnects] + more, |before|)
    ensures Run(s0, before + [GuardReconnects] + more) == Run(Step(Run(s0, before), GuardReconnects), more)
    ensures Run(s0, before + [GuardReconnects]) == Step(Run(s0, before), GuardReconnects)
  {
    hide Enabled; hide Step; hide Quietly; hide Run;
    var first := before + [GuardReconnects];
    var all := first + more;
    RunAppend(s0, before, [GuardReconnects]);
    FirstThen(Run(s0, before), GuardReconnects, []);
    NoActions(Step(Run(s0, before), GuardReconnects));
    assert [GuardReconnects] + [] == [GuardReconnects];
    assert all[..|before|] == before && all[|before|] == GuardReconnects;
    assert Reconnects(Run(s0, all[..|before|]), all[|before|]);
    RunAppend(s0, first, more);
    forall j | |before| < j < |all| ensures Quietly(Run(s0, all[..j]), all[j]) {
      RunAppend(s0, first, more[..j - |first|]);
      assert all[..j] == first + more[..j - |first|] && all[j] == more[j - |first|];
    }
  }

  /** From every reachable reconnect at which a completion is remembered and what was discarded ends in a start, a run
      goes on to release while the task runs. */
  lemma LostStartReleases(s0: State, before: seq<Action>) returns (actions: seq<Action>)
    requires Init(s0) && Enabled(Run(s0, before), GuardReconnects) && Run(s0, before).guard.terminal
    requires !LostNoStart(s0, before + [GuardReconnects])
    ensures before <= actions && DecidesAcross(s0, actions, |before|) && BoundTaskRuns(Run(s0, actions))
  {
    hide Run; hide Init; hide Inv; hide Discarded; hide Silent;
    var s, first := Run(s0, before), before + [GuardReconnects];
    var u := Step(s, GuardReconnects);
    NothingSilent(u);
    LastReconnectHere(s0, before, []);
    assert first + [] == first;
    Reachable(s0, before);
    Reachable(s0, first);
    HeardThroughout(s0, before);
    DiscardedStep(s0, before, GuardReconnects);
    LostRuns(s, Discarded(s0, before));
    var more := ReleasesRunning(u, s.guard.task.value);
    LastReconnectHere(s0, before, more);
    actions := first + more;
  }

  lemma LostRuns(s: State, lost: seq<Item>)
    requires HeardOk(s.native, s.guard, lost) && s.guard.terminal
    ensures s.guard.task.Some?
    ensures !Told(true, lost + s.native.toGuardian, s.guard.task.value) ==>
      Running(s.native, s.guard.task.value) && Running(s.native.(toGuardian := []), s.guard.task.value)
  {
    ToldAppend(true, lost, s.native.toGuardian, s.guard.task.value);
  }

  /** Nothing is remembered anew, and the task stays bound. */
  ghost predicate Carries(g: Guard, next: Guard) {
    && (Remembers(next) ==> g.terminal)
    && (g.task.Some? ==> next.task == g.task && !next.watch.ListingLoaded?)
  }

  lemma {:induction false} AcrossReconnect(s0: State, actions: seq<Action>, k: nat)
    requires Init(s0) && LastReconnect(s0, actions, k)
    ensures Carries(Run(s0, actions[..k]).guard, Run(s0, actions).guard)
    ensures Discarded(s0, actions) == Discarded(s0, actions[..k + 1])
    decreases |actions|
  {
    hide Init; hide Enabled; hide Step; hide Speaks; hide Carries; hide Next; hide Discarded; hide Reconnects; hide Quietly; hide StillDiscarded;
    var n := |actions| - 1;
    var shorter, a := actions[..n], actions[n];
    var s := Run(s0, shorter);
    if n == k {
      assert actions[..k + 1] == actions;
      ReconnectCarries(s, a);
    } else {
      assert forall j :: 0 <= j < n ==> shorter[..j] == actions[..j] && shorter[j] == actions[j];
      assert shorter[..k + 1] == actions[..k + 1];
      assert forall j :: k < j < n ==> Quietly(Run(s0, shorter[..j]), shorter[j]);
      AcrossReconnect(s0, shorter, k);
      Reachable(s0, shorter);
      assert Quietly(s, a);
      assert shorter + [a] == actions;
      DiscardedStep(s0, shorter, a);
      QuietDiscards(s, a, Discarded(s0, shorter));
      QuietCarries(Run(s0, actions[..k]).guard, s, a);
    }
  }

  lemma ReconnectCarries(s: State, a: Action)
    requires Reconnects(s, a)
    ensures Carries(s.guard, Next(s, a).guard)
  {
  }

  lemma QuietDiscards(s: State, a: Action, lost: seq<Item>)
    requires Quietly(s, a)
    ensures StillDiscarded(s, a, lost) == lost
  {
  }

  lemma QuietCarries(g: Guard, s: State, a: Action)
    requires Inv(s) && Carries(g, s.guard) && Quietly(s, a)
    ensures Carries(g, Next(s, a).guard)
  {
    hide Inv; hide Next; hide Speaks;
    RemembersAnew(s, a);
    if g.task.Some? { StaysBound(s, a); }
  }

  lemma StaysBound(s: State, a: Action)
    requires s.guard.task.Some? ==> !s.guard.watch.ListingLoaded?
    ensures s.guard.task.Some? ==> Next(s, a).guard.task == s.guard.task && !Next(s, a).guard.watch.ListingLoaded?
  {
    hide Serve; hide Receive;
  }

  /** Exactly when a completion remembered across a lost connection is proof enough: what was discarded since the
      task was last heard of does not end in a start. Then no release decided across that loss finds the task
      running, and after any other loss some release does. */
  lemma RememberedCompletionProvesIff(s0: State, before: seq<Action>)
    requires Init(s0) && Enabled(Run(s0, before), GuardReconnects)
    ensures (Run(s0, before).guard.terminal ==> LostNoStart(s0, before + [GuardReconnects])) <==>
      forall actions :: before <= actions && DecidesAcross(s0, actions, |before|) ==> !BoundTaskRuns(Run(s0, actions))
  {
    hide Run; hide Init; hide BoundTaskRuns; hide Enabled; hide LostNoStart; hide DecidesAcross;
    if Run(s0, before).guard.terminal ==> LostNoStart(s0, before + [GuardReconnects]) {
      forall actions | before <= actions && DecidesAcross(s0, actions, |before|) ensures !BoundTaskRuns(Run(s0, actions)) {
        DecidedSafely(s0, before, actions);
      }
    } else {
      var actions := LostStartReleases(s0, before);
    }
  }

  lemma DecidedSafely(s0: State, before: seq<Action>, actions: seq<Action>)
    requires Init(s0) && before <= actions && DecidesAcross(s0, actions, |before|)
    requires Run(s0, before).guard.terminal ==> LostNoStart(s0, before + [GuardReconnects])
    ensures !BoundTaskRuns(Run(s0, actions))
  {
    hide Run; hide Init; hide Inv; hide Discarded; hide Quietly; hide Running;
    var first := before + [GuardReconnects];
    assert actions[..|before|] == before && actions[..|before| + 1] == first;
    AcrossReconnect(s0, actions, |before|);
    NothingSilent(Step(Run(s0, before), GuardReconnects));
    LastReconnectHere(s0, before, []);
    Reachable(s0, before);
    HeardThroughout(s0, before);
    LostRuns(Run(s0, before), Discarded(s0, before));
    NothingRunsAtGuardRelease(s0, actions);
    GuardianReleasesIdleTask(s0, actions);
    Reachable(s0, actions);
    DecidedTask(Run(s0, actions));
  }

  lemma DecidedTask(s: State)
    requires Inv(s) && s.guard.watch.Decided? && s.guard.watch.proof == TerminalSeen
    ensures s.guard.watch.task.Some? && s.guard.task == s.guard.watch.task
  {
  }

  // ----- a guardian that lost its connection -----

  /** The guardian heard the first turn end, then lost the connection that told it of the second. */
  ghost function Lost(): State {
    var s := Heard();
    s.(native := Native(true, [], map[0 := [true, false]], {0}, [Started(0, 1), TurnReply(1, 0, 1)], []),
       exec := s.exec.(slots := map[1 := TurnSent]),
       guard := Guard(Some(0), true, false, Watching))
  }

  lemma GuardHeard(s: State) returns (actions: seq<Action>)
    requires s == Heard()
    ensures Run(s, actions) == s.(native := s.native.(toGuardian := []), guard := Guard(Some(0), true, false, Watching))
  {
    hide Run;
    var t := s;
    actions := Begin(s);
    actions, t := Then(s, actions, t, GuardBinds(0));
    actions, t := Then(s, actions, t, GuardReceives);
    assert t.native.toGuardian == [Completed(0, 0)];
    actions, t := Then(s, actions, t, GuardReceives);
  }

  lemma GuardLoses(s: State) returns (actions: seq<Action>)
    requires s == Heard().(native := Heard().native.(toGuardian := []), guard := Guard(Some(0), true, false, Watching))
    ensures Run(s, actions) == Lost()
  {
    hide Run;
    var t := s;
    actions := Begin(s);
    actions, t := Then(s, actions, t, Admit(1));
    actions, t := Then(s, actions, t, SendTurn(1));
    actions, t := Serves(s, actions, t, IdleKind);
    assert t.native.inbox == [] && t.native.threads[0] == [true, false];
    actions, t := Then(s, actions, t, GuardReconnects);
    assert t.native.threads == map[0 := [true, false]];
    assert t.exec.slots == map[1 := TurnSent];
  }

  lemma GuardDecides(s: State) returns (actions: seq<Action>)
    requires s == Lost()
    ensures Enabled(Run(s, actions), GuardReleases) && Running(Run(s, actions).native, 0)
    ensures Run(s, actions).guard.watch == Decided(Some(0), TerminalSeen)
  {
    hide Run;
    var t := s;
    actions := Begin(s);
    hide Serve; hide Receive; hide Notice;
    actions, t := Then(s, actions, t, KeeperDies);
    actions, t := Then(s, actions, t, GuardAsks);
    assert t.native.inbox == [ReadThread(0, 0, Guardian)];
    var more := OldRead(t);
    RunAppend(s, actions, more);
    actions := actions + more;
  }

  lemma OldRead(s: State) returns (actions: seq<Action>)
    requires s.native == Lost().native.(inbox := [ReadThread(0, 0, Guardian)])
    requires s.guard == Lost().guard.(watch := Reading(0, 0))
    ensures Enabled(Run(s, actions), GuardReleases) && Running(Run(s, actions).native, 0)
    ensures Run(s, actions).guard.watch == Decided(Some(0), TerminalSeen)
  {
    hide Run; hide Receive;
    var t := s;
    actions := Begin(s);
    actions, t := Serves(s, actions, t, SystemErrorKind);
    assert t.native.toGuardian == [Status(0, 0, SystemErrorKind)];
    actions, t := Then(s, actions, t, GuardReceives);
  }

  /** A completion remembered across a lost connection may be old: the start lost with it runs at release. */
  lemma LostConnectionMayHideATurn() returns (s0: State, actions: seq<Action>)
    ensures Init(s0) && OneStartThroughout(s0, actions) && Enabled(Run(s0, actions), GuardReleases)
    ensures Run(s0, actions).guard.watch.proof == TerminalSeen && Running(Run(s0, actions).native, 0)
    ensures !LostNoStart(s0, actions) && !KeepsConnection(s0, actions)
  {
    s0 := Fresh();
    actions := FirstTurnRuns(s0);
    var more := FirstTurnHeard(Run(s0, actions));
    RunAppend(s0, actions, more);
    actions := actions + more;
    more := GuardHeard(Run(s0, actions));
    RunAppend(s0, actions, more);
    actions := actions + more;
    more := GuardLoses(Run(s0, actions));
    RunAppend(s0, actions, more);
    actions := actions + more;
    more := GuardDecides(Run(s0, actions));
    RunAppend(s0, actions, more);
    actions := actions + more;
    AdmittedStartsNothing(s0, actions);
    if LostNoStart(s0, actions) { OneTaskAtGuardRelease(s0, actions); }
    if KeepsConnection(s0, actions) { ConnectedGuardIsSafe(s0, actions); }
  }

  // ----- two thread/start requests at once -----

  ghost function Unowned(): State {
    State(Native(true, [], map[], {}, [], []),
          Keeper(true, None, None, map[], false, false, false, false, Resting, {}),
          Guard(None, false, false, Watching), 0, false)
  }

  ghost function BothSent(): State {
    var s := Unowned();
    s.(native := s.native.(inbox := [StartThread(0), StartThread(1)]),
       exec := s.exec.(slots := map[0 := StartSent, 1 := StartSent], opening := true))
  }

  /** The first task's turn was sent, then the second task took its place. */
  ghost function Replaced(): State {
    var s := Unowned();
    s.(native := s.native.(inbox := [StartTurn(0, 2)], threads := map[0 := [], 1 := []], loaded := {0, 1}),
       exec := s.exec.(id := Some(1), owned := {0, 1}))
  }

  ghost function FirstUsed(): State {
    var s := Replaced();
    s.(native := s.native.(toExecutor := [Created(1, 1)]),
       exec := s.exec.(id := Some(0), owned := {0}, slots := map[0 := Owning, 1 := StartSent], opening := true))
  }

  lemma BothChecked(s: State) returns (actions: seq<Action>)
    requires s == Unowned()
    ensures Run(s, actions) == BothSent()
  {
    hide Run;
    var t := s;
    actions := Begin(s);
    actions, t := Then(s, actions, t, Admit(0));
    actions, t := Then(s, actions, t, Admit(1));
    actions, t := Then(s, actions, t, CheckStart(0));
    actions, t := Then(s, actions, t, CheckStart(1));
    actions, t := Then(s, actions, t, SendStart(0));
    actions, t := Then(s, actions, t, SendStart(1));
    assert t.exec.slots == map[0 := StartSent, 1 := StartSent];
  }

  lemma BothCreated(s: State) returns (actions: seq<Action>)
    requires s == BothSent()
    ensures Run(s, actions) == s.(native := s.native.(inbox := [], threads := map[0 := [], 1 := []], loaded := {0, 1},
                                                      toExecutor := [Created(0, 0), Created(1, 1)]))
  {
    hide Run;
    var t := s;
    actions := Begin(s);
    actions, t := Serves(s, actions, t, IdleKind);
    assert t.native.inbox == [StartThread(1)];
    actions, t := Then(s, actions, t, NativeServes(1, IdleKind));
    assert t.native.loaded == {0, 1};
  }

  lemma FirstTaskUsed(s: State) returns (actions: seq<Action>)
    requires s == BothSent().(native := BothSent().native.(inbox := [], threads := map[0 := [], 1 := []], loaded := {0, 1},
                                                            toExecutor := [Created(0, 0), Created(1, 1)]))
    ensures Run(s, actions) == FirstUsed()
  {
    hide Run;
    var t := s;
    actions := Begin(s);
    actions, t := Receives(s, actions, t);
    assert t.native.toExecutor == [Created(1, 1)];
    assert t.exec.slots == map[0 := Owning, 1 := StartSent];
    actions, t := Then(s, actions, t, Admit(2));
    actions, t := Then(s, actions, t, SendTurn(2));
    actions, t := Then(s, actions, t, Settle(2));
    assert t.exec.slots == map[0 := Owning, 1 := StartSent] && t.exec.owned == {0};
  }

  lemma SecondReplacesFirst(s: State) returns (actions: seq<Action>)
    requires s == FirstUsed()
    ensures Run(s, actions) == Replaced()
  {
    hide Run;
    var t := s;
    actions := Begin(s);
    hide Serve; hide Notice;
    actions, t := Receives(s, actions, t);
    assert t.exec.slots == map[0 := Owning, 1 := Owning] && t.exec.owned == {0, 1};
    hide Receive;
    actions, t := Then(s, actions, t, Reopen(0));
    actions, t := Then(s, actions, t, Reopen(1));
    assert t.exec.slots == map[0 := Finished, 1 := Finished];
    actions, t := Then(s, actions, t, Settle(0));
    assert t.exec.slots == map[1 := Finished];
    actions, t := Then(s, actions, t, Settle(1));
    assert t.exec.slots == map[];
  }

  /** The first task's turn runs, and nothing reminds the executor of it. */
  ghost function Forgotten(): State {
    var s := Replaced();
    s.(native := Native(true, [], map[0 := [false], 1 := []], {0, 1}, [], [Started(0, 0)]))
  }

  lemma FirstTaskForgotten(s: State) returns (actions: seq<Action>)
    requires s == Replaced()
    ensures Run(s, actions) == Forgotten()
  {
    hide Run; hide Step; hide Enabled;
    var t := s;
    actions := Begin(s);
    actions, t := Serves(s, actions, t, IdleKind);
    assert t.native.inbox == [] && t.native.threads[0] == [false] && t.native.loaded == {0, 1};
    actions, t := Receives(s, actions, t);
    assert t.native.toExecutor == [TurnReply(2, 0, 0)];
    actions, t := Receives(s, actions, t);
    assert t.native.threads == map[0 := [false], 1 := []];
  }

  lemma SecondTaskRead(s: State) returns (actions: seq<Action>)
    requires s == Forgotten()
    ensures Run(s, actions).native.alive && Run(s, actions).exec.alive && Running(Run(s, actions).native, 0)
    ensures Run(s, actions).exec.phase == Verified(Some(1), IdleStatus)
  {
    hide Run; hide Serve; hide Receive;
    var t := s;
    actions := Begin(s);
    actions, t := Then(s, actions, t, Fence);
    actions, t := Then(s, actions, t, CopyState);
    assert t.native.inbox == [ReadThread(1, 0, Executor)];
    var more := IdleRead(t);
    RunAppend(s, actions, more);
    actions := actions + more;
  }

  lemma IdleRead(s: State) returns (actions: seq<Action>)
    requires s.native == Forgotten().native.(inbox := [ReadThread(1, 0, Executor)]) && s.exec.alive && s.exec.phase == Asking(0, 1, None)
    ensures Run(s, actions).native.alive && Run(s, actions).exec.alive && Running(Run(s, actions).native, 0)
    ensures Run(s, actions).exec.phase == Verified(Some(1), IdleStatus)
  {
    hide Run; hide Step; hide Enabled;
    var t := s;
    actions := Begin(s);
    actions, t := Serves(s, actions, t, IdleKind);
    actions, t := Receives(s, actions, t);
  }

  /** Two overlapping thread/start requests both pass the check, and the forgotten task runs at release. */
  lemma OverlappingStartsLoseATask() returns (s0: State, actions: seq<Action>)
    ensures Init(s0) && Enabled(Run(s0, actions), Release)
    ensures Run(s0, actions).exec.phase.evidence == IdleStatus && Running(Run(s0, actions).native, 0)
    ensures !OneStartThroughout(s0, actions)
  {
    s0 := Unowned();
    actions := BothChecked(s0);
    var more := BothCreated(Run(s0, actions));
    RunAppend(s0, actions, more);
    actions := actions + more;
    more := FirstTaskUsed(Run(s0, actions));
    RunAppend(s0, actions, more);
    actions := actions + more;
    more := SecondReplacesFirst(Run(s0, actions));
    RunAppend(s0, actions, more);
    actions := actions + more;
    more := FirstTaskForgotten(Run(s0, actions));
    RunAppend(s0, actions, more);
    actions := actions + more;
    more := SecondTaskRead(Run(s0, actions));
    RunAppend(s0, actions, more);
    actions := actions + more;
    if OneStartThroughout(s0, actions) {
      OwnsOneThroughout(s0, actions);
      NothingRunsAtRelease(s0, actions);
    }
  }
}

/** What the executor records of its task is what it heard, in every run. */
module LifetimeRecord {
  import opened Common
  import opened Lifetime

  ghost predicate Takes(s: State, a: Action) { a.ExecutorReceives? && Enabled(s, a) }

  /** The executor takes this start, completion or close of the task it owns. */
  ghost predicate HearsStart(s: State, a: Action) {
    Takes(s, a) && var item := s.native.toExecutor[0]; item.Started? && s.exec.id == Some(item.thread)
  }

  ghost predicate HearsEnd(s: State, a: Action) {
    Takes(s, a) && var item := s.native.toExecutor[0]; (item.Completed? || item.Closed?) && s.exec.id == Some(item.thread)
  }

  /** It takes the answer to a turn/start that a request still waits for. */
  ghost predicate HearsReply(s: State, a: Action) {
    Takes(s, a) && var item := s.native.toExecutor[0]; item.TurnReply? && item.slot in s.exec.slots && s.exec.slots[item.slot] == TurnSent
  }

  /** Whether the last start or end heard, if any, is an end. */
  ghost predicate Ended(s0: State, actions: seq<Action>)
    decreases |actions|
  {
    if actions == [] then s0.exec.settled
    else
      var s, a := Run(s0, actions[..|actions| - 1]), actions[|actions| - 1];
      HearsEnd(s, a) || (!HearsStart(s, a) && Ended(s0, actions[..|actions| - 1]))
  }

  /** A turn was heard to start, or was answered and not heard to end before its request finished; and none ended since. */
  ghost predicate Busy(s0: State, actions: seq<Action>)
    decreases |actions|
  {
    actions != [] &&
    var before, a := actions[..|actions| - 1], actions[|actions| - 1];
    var s := Run(s0, before);
    HearsStart(s, a) || (a.MarkActive? && Enabled(s, a) && !Ended(s0, before)) || (Busy(s0, before) && !HearsEnd(s, a))
  }

  /** The turn heard of last; an answer says nothing new of the turn it names if that is already it. */
  ghost function LastTurn(s0: State, actions: seq<Action>): Option<TurnRef>
    decreases |actions|
  {
    if actions == [] then None
    else
      var before, a := actions[..|actions| - 1], actions[|actions| - 1];
      var s, was := Run(s0, before), LastTurn(s0, before);
      if HearsStart(s, a) then Some(TurnRef(s.native.toExecutor[0].thread, s.native.toExecutor[0].turn, false))
      else if HearsEnd(s, a) && s.native.toExecutor[0].Completed? then
        Some(TurnRef(s.native.toExecutor[0].thread, s.native.toExecutor[0].turn, true))
      else if HearsReply(s, a) then
        var item := s.native.toExecutor[0];
        if was.Some? && was.value.thread == item.thread && was.value.index == item.turn then was
        else Some(TurnRef(item.thread, item.turn, false))
      else was
  }

  ghost predicate Own(e: Keeper, item: Item) {
    (item.Started? || item.Completed? || item.Closed?) && e.id == Some(item.thread)
  }

  lemma AnswersSayNothing(e: Keeper, item: Item)
    requires item.Created? || item.Status? || item.LatestTurn? || item.LoadedList?
    ensures var next := Receive(e, item); next.settled == e.settled && next.active == e.active && next.turn == e.turn
  {
  }

  lemma ReceivedRecord(e: Keeper, item: Item)
    ensures var next, own := Receive(e, item), Own(e, item);
      && next.settled == (if own then !item.Started? else e.settled) && next.active == (if own then item.Started? else e.active)
      && next.turn == if own && !item.Closed? then Some(TurnRef(item.thread, item.turn, item.Completed?))
                      else if item.TurnReply? && item.slot in e.slots && e.slots[item.slot] == TurnSent then
                        if e.turn.Some? && e.turn.value.thread == item.thread && e.turn.value.index == item.turn then e.turn
                        else Some(TurnRef(item.thread, item.turn, false))
                      else e.turn
  {
    if item.Created? || item.Status? || item.LatestTurn? || item.LoadedList? {
      hide Receive;
      AnswersSayNothing(e, item);
    }
  }

  lemma ElsewhereRecord(s: State, a: Action)
    requires Enabled(s, a) && !a.ExecutorReceives?
    requires a.NativeServes? || a.TurnEnds? || a.ThreadCloses? || a.Unload? || a.AskTurns? || a.Release?
             || a.GuardBinds? || a.GuardAsks? || a.GuardReceives? || a.GuardReconnects? || a.GuardReleases?
    ensures Step(s, a).exec == s.exec
  {
    hide Serve; hide Finish; hide Notice; hide Receive; hide Running;
  }

  lemma RequestRecord(s: State, a: Action)
    requires Enabled(s, a)
    requires a.Admit? || a.CheckStart? || a.SendStart? || a.SendTurn? || a.Reopen? || a.MarkActive? || a.Settle?
    ensures var e, next := s.exec, Step(s, a).exec;
      next.settled == e.settled && next.turn == e.turn && next.active == (e.active || (a.MarkActive? && !e.settled))
  {
    hide Serve; hide Finish; hide Notice; hide Receive; hide Running;
  }

  lemma RetireRecord(s: State, a: Action)
    requires Enabled(s, a) && (a.Fence? || a.CopyState? || a.GiveUp? || a.Disconnect? || a.KeeperDies?)
    ensures var e, next := s.exec, Step(s, a).exec; next.settled == e.settled && next.turn == e.turn && next.active == e.active
  {
    hide Serve; hide Finish; hide Notice; hide Receive; hide Running;
  }

  lemma OtherRecord(s: State, a: Action)
    requires Enabled(s, a) && !a.ExecutorReceives?
    ensures var e, next := s.exec, Step(s, a).exec;
      next.settled == e.settled && next.turn == e.turn && next.active == (e.active || (a.MarkActive? && !e.settled))
  {
    hide Step; hide Enabled;
    if a.Admit? || a.CheckStart? || a.SendStart? || a.SendTurn? || a.Reopen? || a.MarkActive? || a.Settle? {
      RequestRecord(s, a);
    } else if a.Fence? || a.CopyState? || a.GiveUp? || a.Disconnect? || a.KeeperDies? {
      RetireRecord(s, a);
    } else {
      ElsewhereRecord(s, a);
    }
  }

  /** How one action moves the record. */
  lemma NextRecord(s: State, a: Action)
    ensures var e, next := s.exec, Next(s, a).exec;
      && (next.settled <==> HearsEnd(s, a) || (!HearsStart(s, a) && e.settled))
      && (next.active <==> HearsStart(s, a) || (a.MarkActive? && Enabled(s, a) && !e.settled) || (e.active && !HearsEnd(s, a)))
  {
    hide Receive;
    if Enabled(s, a) {
      if a.ExecutorReceives? {
        ReceivedRecord(s.exec, s.native.toExecutor[0]);
      } else {
        hide Enabled; hide Step;
        OtherRecord(s, a);
      }
    }
  }

  lemma NextTurn(s: State, a: Action)
    ensures var e, next := s.exec, Next(s, a).exec;
      if HearsStart(s, a) then next.turn == Some(TurnRef(s.native.toExecutor[0].thread, s.native.toExecutor[0].turn, false))
      else if HearsEnd(s, a) && s.native.toExecutor[0].Completed? then
        next.turn == Some(TurnRef(s.native.toExecutor[0].thread, s.native.toExecutor[0].turn, true))
      else if HearsReply(s, a) then
        var item := s.native.toExecutor[0];
        next.turn == if e.turn.Some? && e.turn.value.thread == item.thread && e.turn.value.index == item.turn then e.turn
                     else Some(TurnRef(item.thread, item.turn, false))
      else next.turn == e.turn
  {
    hide Receive;
    if Enabled(s, a) {
      if a.ExecutorReceives? {
        ReceivedRecord(s.exec, s.native.toExecutor[0]);
      } else {
        hide Enabled; hide Step;
        OtherRecord(s, a);
      }
    }
  }

  /** Over every run the executor's record is what it heard. */
  lemma {:induction false} RecordIsHeard(s0: State, actions: seq<Action>)
    requires Init(s0)
    ensures var e := Run(s0, actions).exec;
      && (e.settled <==> Ended(s0, actions)) && (e.active <==> Busy(s0, actions)) && e.turn == LastTurn(s0, actions)
    decreases |actions|
  {
    hide Next; hide HearsStart; hide HearsEnd; hide HearsReply; hide Enabled;
    if actions != [] {
      hide Init;
      var before := actions[..|actions| - 1];
      RecordIsHeard(s0, before);
      NextRecord(Run(s0, before), actions[|actions| - 1]);
      NextTurn(Run(s0, before), actions[|actions| - 1]);
    }
  }

  /** The fence is taken exactly when no request is open and no turn is known to run. */
  lemma FenceIff(s0: State, actions: seq<Action>)
    requires Init(s0)
    ensures var s := Run(s0, actions);
      Enabled(s, Fence) <==> s.native.alive && s.exec.alive && !s.exec.retiring && s.exec.slots == map[] && !Busy(s0, actions)
  {
    hide Busy; hide Init; hide Run;
    RecordIsHeard(s0, actions);
  }
}

/** An owner that may release an idle process can: no status native may report of an idle task keeps it for ever. */
module LifetimeProgress {
  import opened Common
  import opened Lifetime
  import opened LifetimeSafety
  import opened LifetimeLimits

  /** A question about one thread. */
  type Ask = r: Request | r.ReadThread? || r.ListTurns? witness ListTurns(0, 0)

  ghost function Box(n: Native, r: Ask): seq<Item> {
    if r.ReadThread? && r.owner == Guardian then n.toGuardian else n.toExecutor
  }

  /** What an idle thread is told to be: any status, and a latest turn that is terminal if there is one. */
  ghost function Answer(n: Native, r: Ask, kind: Kind): Item
    requires r.thread in n.threads
  {
    if r.ReadThread? then Status(r.tag, r.thread, kind) else LatestTurn(r.tag, n.threads[r.thread] != [])
  }

  /** The question is the last request at native, and its thread stays idle. */
  ghost predicate Asked(n: Native, r: Ask) {
    && n.alive && r.thread in n.threads && CalmTask(n, r.thread)
    && n.inbox != [] && n.inbox[|n.inbox| - 1] == r
    && (forall i :: 0 <= i < |n.inbox| - 1 ==> !Tagged(n.inbox[i], r.tag))
    && (forall i :: 0 <= i < |Box(n, r)| ==> !Answers(Box(n, r)[i], r.tag))
  }

  /** Native has served everything, and this answer is the last item on the connection. */
  ghost predicate LastSaid(n: Native, r: Ask, item: Item) {
    && n.alive && n.inbox == [] && Answers(item, r.tag)
    && var box := Box(n, r);
      box != [] && box[|box| - 1] == item && forall i :: 0 <= i < |box| - 1 ==> !Answers(box[i], r.tag)
  }

  lemma ServeAsked(n: Native, r: Ask, kind: Kind)
    requires Asked(n, r)
    ensures n.inbox != [] && n.alive && r.thread in n.threads
    ensures var m := Serve(n, 0, kind);
      && r.thread in m.threads && m.threads[r.thread] == n.threads[r.thread] && CalmTask(m, r.thread)
      && if |n.inbox| == 1 then LastSaid(m, r, Answer(n, r, kind)) else Asked(m, r)
  {
    var m, head := Serve(n, 0, kind), n.inbox[0];
    assert m.inbox == n.inbox[1..];
    assert forall i :: 0 <= i < |m.inbox| ==> m.inbox[i] == n.inbox[i + 1];
    ServeCalmTask(n, 0, kind, r.thread);
    SaysOnly(n, r, kind);
  }

  /** Serving another request says nothing under this tag. */
  lemma SaysOnly(n: Native, r: Ask, kind: Kind)
    requires n.inbox != []
    ensures var m := Serve(n, 0, kind);
      && Box(n, r) <= Box(m, r)
      && forall i :: |Box(n, r)| <= i < |Box(m, r)| && Answers(Box(m, r)[i], r.tag) ==> Tagged(n.inbox[0], r.tag)
  {
  }

  lemma ServeTells(n: Native, kind: Kind, t: nat, done: bool)
    requires n.inbox != [] && CalmTask(n, t)
    ensures Told(done, Serve(n, 0, kind).toGuardian, t) == Told(done, n.toGuardian, t)
  {
    var box := n.toGuardian;
    var m := Serve(n, 0, kind).toGuardian;
    if m != box {
      var item := m[|m| - 1];
      assert m == box + [item];
      ToldSnoc(done, box, item, t);
    }
  }

  lemma ServeTakes(n: Native, kind: Kind)
    requires n.inbox != []
    ensures |Serve(n, 0, kind).inbox| < |n.inbox|
  {
  }

  lemma AskedMeans(n: Native, r: Ask)
    requires Asked(n, r)
    ensures CalmTask(n, r.thread)
  {
  }

  /** Native serves its inbox, reporting `kind` of every thread it may say that of. */
  lemma {:induction false} ServeUp(s: State, r: Ask, kind: Kind) returns (more: seq<Action>)
    requires Asked(s.native, r)
    ensures r.thread in s.native.threads
    ensures var u := Run(s, more);
      && NoCopies(more) && u == s.(native := u.native) && LastSaid(u.native, r, Answer(s.native, r, kind))
      && r.thread in u.native.threads && u.native.threads[r.thread] == s.native.threads[r.thread] && CalmTask(u.native, r.thread)
      && Told(s.guard.terminal, u.native.toGuardian, r.thread) == Told(s.guard.terminal, s.native.toGuardian, r.thread)
    decreases |s.native.inbox|
  {
    hide Asked; hide LastSaid; hide CalmTask; hide Serve; hide Told;
    var a := NativeServes(0, kind);
    AskedMeans(s.native, r);
    ServeAsked(s.native, r, kind);
    ServeTells(s.native, kind, r.thread, s.guard.terminal);
    var u := Step(s, a);
    var rest: seq<Action> := [];
    if |s.native.inbox| > 1 {
      ServeTakes(s.native, kind);
      rest := ServeUp(u, r, kind);
    }
    FirstThen(s, a, rest);
    more := [a] + rest;
  }

  // ----- the executor -----

  /** The executor waits for the answer to this question. */
  ghost predicate Expects(e: Keeper, r: Ask) {
    && e.alive && e.slots == map[]
    && if r.ReadThread? then r.owner == Executor && e.phase.Asking? && e.phase.tag == r.tag && e.phase.thread == r.thread
       else e.phase == Listing(r.tag, r.thread)
  }

  /** What an answer settles: the task is verified idle, its turns are asked for, or the executor takes requests again. */
  ghost function Verdict(p: Phase, item: Item): Phase {
    match item
    case Status(tag, t, kind) =>
      if kind == IdleKind || kind == NotLoadedKind then Verified(Some(t), IdleStatus)
      else if kind == ActiveKind then Resting
      else if p.Asking? && p.cached.Some? && p.cached.value.terminal then Verified(Some(t), CachedTerminal(p.cached.value))
      else Listing(tag, t)
    case LatestTurn(_, terminal) => if p.Listing? && terminal then Verified(Some(p.thread), LatestTerminal) else Resting
    case _ => p
  }

  ghost predicate AnswersAsk(item: Item, r: Ask) {
    if r.ReadThread? then item.Status? && item.tag == r.tag && item.thread == r.thread else item.LatestTurn? && item.tag == r.tag
  }

  lemma ReceiveOther(e: Keeper, r: Ask, item: Item)
    requires Expects(e, r) && !Answers(item, r.tag)
    ensures Expects(Receive(e, item), r) && Receive(e, item).phase == e.phase
  {
  }

  lemma ReceiveAnswer(e: Keeper, r: Ask, item: Item)
    requires Expects(e, r) && AnswersAsk(item, r)
    ensures var after := Receive(e, item); after.alive && after.slots == map[] && after.phase == Verdict(e.phase, item)
  {
  }

  /** The executor reads its connection up to the answer. */
  lemma {:induction false} HearAll(s: State, r: Ask, item: Item) returns (more: seq<Action>)
    requires Expects(s.exec, r) && LastSaid(s.native, r, item) && AnswersAsk(item, r)
    ensures var u := Run(s, more);
      && NoCopies(more) && u.native == s.native.(toExecutor := []) && u.exec.alive && u.exec.slots == map[]
      && u.exec.phase == Verdict(s.exec.phase, item)
    decreases |s.native.toExecutor|
  {
    var n := s.native;
    assert Box(n, r) == n.toExecutor && s.exec.alive;
    hide Receive; hide Expects; hide Verdict; hide Run;
    var u := Step(s, ExecutorReceives);
    var rest: seq<Action> := [];
    if |n.toExecutor| == 1 {
      ReceiveAnswer(s.exec, r, item);
      NoActions(u);
    } else {
      ReceiveOther(s.exec, r, n.toExecutor[0]);
      assert forall i :: 0 <= i < |u.native.toExecutor| ==> u.native.toExecutor[i] == n.toExecutor[i + 1];
      rest := HearAll(u, r, item);
    }
    hide Step; hide LastSaid;
    FirstThen(s, ExecutorReceives, rest);
    more := [ExecutorReceives] + rest;
  }

  /** Native answers the question, and the executor hears it. */
  lemma AskAndHear(s: State, r: Ask, kind: Kind) returns (more: seq<Action>)
    requires Asked(s.native, r) && Expects(s.exec, r)
    ensures r.thread in s.native.threads
    ensures var u := Run(s, more);
      && NoCopies(more) && u.native.alive && u.native.inbox == [] && u.native.toExecutor == []
      && r.thread in u.native.threads && u.native.threads[r.thread] == s.native.threads[r.thread] && CalmTask(u.native, r.thread)
      && u.exec.alive && u.exec.slots == map[] && u.exec.phase == Verdict(s.exec.phase, Answer(s.native, r, kind))
  {
    hide Asked; hide Verdict; hide Run;
    var serve := ServeUp(s, r, kind);
    var u := Run(s, serve);
    var hear := HearAll(u, r, Answer(s.native, r, kind));
    RunAppend(s, serve, hear);
    more := serve + hear;
  }

  lemma CopyAsked(s: State)
    requires Inv(s) && Enabled(s, CopyState) && s.exec.id.Some?
    requires CalmTask(s.native, s.exec.id.value) && s.exec.id.value in s.native.threads
    ensures var u, r := Step(s, CopyState), ReadThread(s.exec.id.value, s.nextTag, Executor);
      Asked(u.native, r) && Expects(u.exec, r) && u.exec.phase == Asking(r.tag, r.thread, s.exec.turn)
    ensures Step(s, CopyState).native.threads == s.native.threads
  {
    assert s.exec.slots == map[];
    hide PhaseOk; hide WatchOk; hide ExecOk;
    var n, m, t := s.native, Step(s, CopyState).native, s.exec.id.value;
    var r := ReadThread(t, s.nextTag, Executor);
    assert m.inbox == n.inbox + [r];
    assert forall i :: 0 <= i < |n.inbox| ==> m.inbox[i] == n.inbox[i] && TagBelow(n.inbox[i], s.nextTag);
    assert NoStartOf(m.inbox, t);
    assert m.threads == n.threads && m.toExecutor == n.toExecutor;
    assert forall i :: 0 <= i < |n.toExecutor| ==> AnswerBelow(n.toExecutor[i], s.nextTag);
  }

  /** A latest turn that is terminal is asked for and heard. */
  lemma ListReleases(s: State, t: nat, tag: nat) returns (more: seq<Action>)
    requires s.native.alive && s.native.inbox == [] && s.native.toExecutor == []
    requires t in s.native.threads && CalmTask(s.native, t) && s.native.threads[t] != []
    requires s.exec.alive && s.exec.slots == map[] && s.exec.phase == Listing(tag, t)
    ensures NoCopies(more) && Enabled(Run(s, more), Release)
  {
    hide Run;
    var u := Step(s, AskTurns);
    var rest := AskAndHear(u, ListTurns(t, tag), SystemErrorKind);
    FirstThen(s, AskTurns, rest);
    more := [AskTurns] + rest;
  }

  /** From every reachable fenced executor whose task is idle and has nothing waiting that starts it, a run goes on to
      release on the very read made next: natively idle or not loaded is enough, and so is systemError of a task
      that ever had a turn. */
  lemma IdleTaskIsReleased(s0: State, before: seq<Action>, kind: Kind) returns (actions: seq<Action>)
    requires Init(s0) && Enabled(Run(s0, before), CopyState) && kind != ActiveKind
    requires var s := Run(s0, before);
      && s.exec.id.Some? && s.exec.id.value in s.native.threads && CalmTask(s.native, s.exec.id.value)
      && (kind == SystemErrorKind ==> s.native.threads[s.exec.id.value] != [])
    ensures before <= actions && LastCopy(s0, actions, |before|) && Enabled(Run(s0, actions), Release)
    ensures kind != SystemErrorKind ==> Run(s0, actions).exec.phase == Verified(Run(s0, before).exec.id, IdleStatus)
  {
    hide Run; hide Init; hide Inv; hide Asked; hide CalmTask; hide LastCopy; hide Expects;
    var s := Run(s0, before);
    Reachable(s0, before);
    CopyAsked(s);
    var u, t := Step(s, CopyState), s.exec.id.value;
    var more := AskAndHear(u, ReadThread(t, s.nextTag, Executor), kind);
    var v := Run(u, more);
    if v.exec.phase.Listing? {
      var list := ListReleases(v, t, s.nextTag);
      RunAppend(u, more, list);
      assert NoCopies(more + list);
      more := more + list;
    }
    LastCopyHere(s0, before, more);
    actions := before + [CopyState] + more;
  }

  // ----- the guardian -----

  ghost predicate GuardExpects(g: Guard, r: Ask) {
    r.ReadThread? && r.owner == Guardian && g.watch == Reading(r.tag, r.thread) && g.task == Some(r.thread)
  }

  lemma NoticeOther(g: Guard, r: Ask, item: Item)
    requires GuardExpects(g, r) && !Answers(item, r.tag)
    ensures Notice(g, item) == g.(terminal := Hears(g.terminal, item, r.thread))
  {
  }

  /** The guardian decides exactly on idle, not loaded, or systemError once the last it heard of the task was a completion. */
  lemma {:induction false} GuardHearAll(s: State, r: Ask, kind: Kind) returns (more: seq<Action>)
    requires GuardExpects(s.guard, r) && LastSaid(s.native, r, Status(r.tag, r.thread, kind))
    ensures var g := Run(s, more).guard;
      && Run(s, more).native.alive && g.task == Some(r.thread)
      && g.watch == if kind == IdleKind || kind == NotLoadedKind then Decided(Some(r.thread), IdleStatus)
                    else if kind == SystemErrorKind && Told(s.guard.terminal, s.native.toGuardian, r.thread)
                    then Decided(Some(r.thread), TerminalSeen) else Watching
    decreases |s.native.toGuardian|
  {
    var n := s.native;
    var u := Step(s, GuardReceives);
    var rest: seq<Action> := [];
    if |n.toGuardian| > 1 {
      NoticeOther(s.guard, r, n.toGuardian[0]);
      assert forall i :: 0 <= i < |u.native.toGuardian| ==> u.native.toGuardian[i] == n.toGuardian[i + 1];
      rest := GuardHearAll(u, r, kind);
    }
    hide Step; hide LastSaid;
    FirstThen(s, GuardReceives, rest);
    more := [GuardReceives] + rest;
  }

  lemma GuardAsked(s: State, t: nat)
    requires Inv(s) && s.native.alive && t in s.native.threads && CalmTask(s.native, t)
    requires s.guard.task == Some(t) && s.guard.watch == Watching
    ensures var u, r := Step(Step(s, KeeperDies), GuardAsks), ReadThread(t, s.nextTag, Guardian);
      Asked(u.native, r) && GuardExpects(u.guard, r) && u.guard.terminal == s.guard.terminal && u.native.toGuardian == s.native.toGuardian
  {
    hide PhaseOk; hide WatchOk; hide ExecOk;
    var n, m := s.native, Step(Step(s, KeeperDies), GuardAsks).native;
    var r := ReadThread(t, s.nextTag, Guardian);
    assert m.inbox == n.inbox + [r];
    assert forall i :: 0 <= i < |n.inbox| ==> m.inbox[i] == n.inbox[i] && TagBelow(n.inbox[i], s.nextTag);
    assert NoStartOf(m.inbox, t);
    assert forall i :: 0 <= i < |n.toGuardian| ==> AnswerBelow(n.toGuardian[i], s.nextTag);
  }

  /** From every reachable guardian that watches an idle task with nothing waiting that starts it, a run goes on to
      release once the keeper is dead: natively idle or not loaded is enough, and so is systemError when the last
      the guardian hears of the task is a completion. */
  lemma WatchedTaskIsReleased(s0: State, before: seq<Action>, kind: Kind) returns (actions: seq<Action>)
    requires Init(s0) && Run(s0, before).native.alive && kind != ActiveKind
    requires var s := Run(s0, before);
      && s.guard.watch == Watching && s.guard.task.Some?
      && s.guard.task.value in s.native.threads && CalmTask(s.native, s.guard.task.value)
      && (kind == SystemErrorKind ==> Told(s.guard.terminal, s.native.toGuardian, s.guard.task.value))
    ensures before <= actions && Enabled(Run(s0, actions), GuardReleases)
    ensures kind != SystemErrorKind ==> Run(s0, actions).guard.watch == Decided(Run(s0, before).guard.task, IdleStatus)
  {
    hide Run; hide Init; hide Inv; hide Asked; hide CalmTask; hide LastSaid; hide Told; hide GuardExpects;
    var s := Run(s0, before);
    Reachable(s0, before);
    var dead, t := Step(s, KeeperDies), s.guard.task.value;
    var asks, r := Step(dead, GuardAsks), ReadThread(t, s.nextTag, Guardian);
    GuardAsked(s, t);
    var serve := ServeUp(asks, r, kind);
    var hear := GuardHearAll(Run(asks, serve), r, kind);
    RunAppend(asks, serve, hear);
    FirstThen(dead, GuardAsks, serve + hear);
    FirstThen(s, KeeperDies, [GuardAsks] + (serve + hear));
    RunAppend(s0, before, [KeeperDies] + ([GuardAsks] + (serve + hear)));
    actions := before + ([KeeperDies] + ([GuardAsks] + (serve + hear)));
  }
}

/** The executor's own fields, one method per critical section. `view` is the keeper of the step machine. */
module LifetimeExecutor {
  import opened Common
  import opened Lifetime

  class TaskExecutor {
    var id: Option<nat>
    var turn: Option<TurnRef>
    var pending: nat
    var active: bool
    var settled: bool
    var retiring: bool
    var opening: bool
    ghost var view: Keeper

    ghost predicate Valid()
      reads this
    {
      && view.alive && view.id == id && view.turn == turn && view.active == active && view.settled == settled
      && view.retiring == retiring && view.opening == opening && |view.slots| == pending <= MAX_PENDING
    }

    constructor (admitted: Option<nat>)
      ensures Valid()
      ensures view == Keeper(true, admitted, None, map[], false, false, false, false, Resting,
                             if admitted.Some? then {admitted.value} else {})
    {
      id, turn, pending := admitted, None, 0;
      active, settled, retiring, opening := false, false, false, false;
      view := Keeper(true, admitted, None, map[], false, false, false, false, Resting,
                     if admitted.Some? then {admitted.value} else {});
    }

    /** Admission: refused exactly when the step is not enabled. */
    method Admit(ghost slot: nat) returns (busy: bool)
      requires Valid() && slot !in view.slots
      modifies this
      ensures Valid()
      ensures !busy <==> !old(view).retiring && |old(view).slots| < MAX_PENDING
      ensures view == if busy then old(view) else old(view).(slots := old(view).slots[slot := Admitted])
    {
      busy := retiring || pending >= MAX_PENDING;
      if !busy {
        pending := pending + 1;
        view := view.(slots := view.slots[slot := Admitted]);
      }
    }

    /** thread/start, first section: the ownership check. */
    method CheckStart(ghost slot: nat) returns (refused: bool)
      requires Valid() && slot in view.slots && view.slots[slot] == Admitted
      modifies this`view
      ensures Valid()
      ensures refused <==> old(view).id.Some? || old(view).opening
      ensures view == if refused then old(view) else old(view).(slots := old(view).slots[slot := Cleared])
    {
      refused := id.Some? || opening;
      if !refused { view := view.(slots := view.slots[slot := Cleared]); }
    }

    /** thread/start, second section. */
    method SetOpening(ghost slot: nat)
      requires Valid() && slot in view.slots && view.slots[slot] == Cleared
      modifies this
      ensures Valid() && view == old(view).(slots := old(view).slots[slot := StartSent], opening := true)
    {
      opening := true;
      view := view.(slots := view.slots[slot := StartSent], opening := true);
    }

    /** thread/start answered: the task is owned. */
    method Own(ghost slot: nat, thread: nat)
      requires Valid() && slot in view.slots && view.slots[slot].StartSent?
      modifies this
      ensures Valid() && view == Receive(old(view), Created(slot, thread))
    {
      id := Some(thread);
      KnownSlot(view.slots, slot, Owning);
      view := Receive(view, Created(slot, thread));
    }

    /** thread/start returns, answered or not. */
    method Reopen(ghost slot: nat)
      requires Valid() && slot in view.slots && (view.slots[slot].StartSent? || view.slots[slot].Owning?)
      modifies this
      ensures Valid() && view == old(view).(slots := old(view).slots[slot := Finished], opening := false)
    {
      opening := false;
      KnownSlot(view.slots, slot, Finished);
      view := view.(slots := view.slots[slot := Finished], opening := false);
    }

    /** turn/start answered: the turn is remembered unless it already is. */
    method TurnStarted(ghost slot: nat, thread: nat, index: nat)
      requires Valid() && slot in view.slots && view.slots[slot].TurnSent?
      modifies this
      ensures Valid() && view == Receive(old(view), TurnReply(slot, thread, index))
    {
      if turn.None? || turn.value.thread != thread || turn.value.index != index {
        turn := Some(TurnRef(thread, index, false));
      }
      KnownSlot(view.slots, slot, Answered);
      view := Receive(view, TurnReply(slot, thread, index));
    }

    /** Then, in its own critical section, the task is active unless a terminal notification came first. */
    method MarkActive(ghost slot: nat)
      requires Valid() && slot in view.slots && view.slots[slot].Answered?
      modifies this
      ensures Valid() && view == old(view).(slots := old(view).slots[slot := Finished], active := old(view).active || !old(view).settled)
    {
      if !settled { active := true; }
      KnownSlot(view.slots, slot, Finished);
      view := view.(slots := view.slots[slot := Finished], active := view.active || !view.settled);
    }

    /** The request leaves. */
    method Settle(ghost slot: nat)
      requires Valid() && slot in view.slots
      modifies this
      ensures Valid() && view == old(view).(slots := old(view).slots - {slot})
    {
      ShrinkSlots(view.slots, slot);
      pending := pending - 1;
      view := view.(slots := view.slots - {slot});
    }

    /** turn/started, turn/completed, thread/closed and thread/archived, about the owned task only. */
    method HandleNotification(item: Item)
      requires Valid() && (item.Started? || item.Completed? || item.Closed?)
      modifies this
      ensures Valid() && view == Receive(old(view), item)
    {
      view := Receive(view, item);
      if id != Some(item.thread) { return; }
      if item.Started? {
        active, settled, turn := true, false, Some(TurnRef(item.thread, item.turn, false));
      }
      if item.Completed? { turn := Some(TurnRef(item.thread, item.turn, true)); }
      if item.Completed? || item.Closed? { active, settled := false, true; }
    }

    /** The fence: taken exactly when nothing admitted is outstanding and no turn is known to run. */
    method Fence() returns (fenced: bool)
      requires Valid()
      modifies this
      ensures Valid()
      ensures fenced <==> !old(view).retiring && old(view).slots == map[] && !old(view).active
      ensures view == if fenced then old(view).(retiring := true, phase := Fenced) else old(view)
    {
      fenced := !(retiring || pending > 0 || active);
      NoSlots(view.slots);
      if fenced {
        retiring := true;
        view := view.(retiring := true, phase := Fenced);
      }
    }

    /** verifyIdle's one decision on the thread/read answer; `ask` means thread/turns/list is needed. */
    method Judge(tag: nat, thread: nat, cached: Option<TurnRef>, kind: Kind) returns (inactive: bool, ask: bool)
      requires Valid() && view.phase == Asking(tag, thread, cached)
      modifies this
      ensures Valid() && view == Receive(old(view), Status(tag, thread, kind))
      ensures inactive <==> view.phase.Verified?
      ensures ask <==> view.phase.Listing?
    {
      inactive := kind == IdleKind || kind == NotLoadedKind;
      ask := false;
      if kind == SystemErrorKind {
        if cached.Some? && cached.value.terminal { inactive := true; } else { ask := true; }
      }
      view := Receive(view, Status(tag, thread, kind));
      if !inactive && !ask { retiring := false; }
    }

    method RetryRetirement()
      requires Valid() && view.phase != Resting
      modifies this
      ensures Valid() && view == old(view).(phase := Resting, retiring := false)
    {
      retiring := false;
      view := view.(phase := Resting, retiring := false);
    }
  }

  class GuardianWatch {
    var task: Option<nat>
    var terminal: bool
    ghost var view: Guard

    ghost predicate Valid()
      reads this
    {
      view.task == task && view.terminal == terminal
    }

    constructor ()
      ensures Valid() && view == Guard(None, false, false, Watching)
    {
      task, terminal := None, false;
      view := Guard(None, false, false, Watching);
    }

    method Bind(thread: nat)
      requires Valid()
      modifies this
      ensures Valid() && view == old(view).(task := Some(thread), terminal := false)
    {
      task, terminal := Some(thread), false;
      view := view.(task := Some(thread), terminal := false);
    }

    method Notification(thread: nat, index: nat, completed: bool)
      requires Valid()
      modifies this
      ensures Valid()
      ensures view == Notice(old(view), if completed then Completed(thread, index) else Started(thread, index))
    {
      view := Notice(view, if completed then Completed(thread, index) else Started(thread, index));
      if task == Some(thread) { terminal := completed; }
    }

    /** The answer to a read: release only on idle, notLoaded, or systemError after a completion. */
    method Idle(tag: nat, thread: nat, kind: Kind) returns (idle: bool)
      requires Valid() && view.watch == Reading(tag, thread)
      modifies this`view
      ensures Valid() && view == Notice(old(view), Status(tag, thread, kind))
      ensures idle <==> view.watch.Decided?
    {
      idle := kind == IdleKind || kind == NotLoadedKind || (kind == SystemErrorKind && terminal);
      view := Notice(view, Status(tag, thread, kind));
    }
  }

  lemma KnownSlot(slots: map<nat, Slot>, slot: nat, state: Slot)
    requires slot in slots
    ensures |slots[slot := state]| == |slots|
  {
    assert slots[slot := state].Keys == slots.Keys;
    assert |slots[slot := state].Keys| == |slots[slot := state]| && |slots.Keys| == |slots|;
  }

  lemma ShrinkSlots(slots: map<nat, Slot>, slot: nat)
    requires slot in slots
    ensures |slots - {slot}| == |slots| - 1
  {
    assert (slots - {slot}).Keys == slots.Keys - {slot};
    assert |slots.Keys| == |slots| && |(slots - {slot}).Keys| == |slots - {slot}|;
  }

  lemma NoSlots(slots: map<nat, Slot>)
    ensures |slots| == 0 <==> slots == map[]
  {
  }
}
