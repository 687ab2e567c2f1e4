/**
 One Claude Mod registration: sequenced, retransmitted event batches, one native
 command at a time, and the receipts of submitted inputs. A world is the
 registration plus the history of what was accepted, issued and handed out.
 */
module ModRegistration {
  import opened Common
  import opened Search
  import opened ModWindow

  const MAX_EVENTS := 24

  datatype Receipt = Unconfirmed | Submitted | Observed | Rejected

  datatype Input = Input(client: string, text: string, command: string, after: nat, receipt: Receipt,
                         matched: bool, accepted: bool, message: string, turn: string)

  datatype Operation = SendInput | StopTurn | ChangeSettings | Diagnose

  /** The verdict the Mod returned; `detail` stands for every other compared field. */
  datatype Verdict = Verdict(ok: bool, detail: string)

  datatype Command = Command(id: string, op: Operation, client: string, turn: string, delivered: bool,
                             completed: bool, result: Option<Verdict>)

  /** `digest` is the last accepted batch itself: the hash is taken as injective. */
  datatype Registration = Registration(desktop: bool, sequence: nat, digest: seq<Event>, view: View,
                                       inputs: seq<Input>, pending: Option<Command>)

  datatype History = History(batches: seq<seq<Event>>, issued: set<string>, handed: seq<string>,
                             verdicts: map<string, bool>)

  datatype World = World(reg: Registration, past: History)

  function Registered(desktop: bool): World {
    World(Registration(desktop, 0, [], Fresh, [], None), History([], {}, [], map[]))
  }

  // ----- push -----

  datatype Outcome = Applied | Repeated | Refused

  /** The event shows this input reaching native state. */
  predicate Observes(e: Event, input: Input) {
    && ((e.RowEvent? && e.role == "user") || e.StartEvent?)
    && e.observed == input.command
    && e.text == input.text
  }

  function Match(input: Input, e: Event, sequence: nat): Input {
    if input.after >= sequence || !Observes(e, input) then input
    else
      input.(matched := true, message := e.uuid, turn := if e.StartEvent? then e.turn else "",
             receipt := if input.receipt == Submitted || (input.accepted && input.receipt == Unconfirmed)
                        then Observed else input.receipt)
  }

  function MatchAll(input: Input, events: seq<Event>, sequence: nat): Input
    decreases |events|
  {
    if events == [] then input
    else Match(MatchAll(input, events[..|events| - 1], sequence), events[|events| - 1], sequence)
  }

  function Verified(r: Registration, events: seq<Event>): bool {
    forall i :: 0 <= i < |events| ==> ValidEvent(events[i], r.desktop)
  }

  function PushOutcome(r: Registration, sequence: nat, events: seq<Event>): Outcome {
    if |events| == 0 || |events| > MAX_EVENTS then Refused
    else if sequence == r.sequence && sequence != 0 && events == r.digest then Repeated
    else if sequence != r.sequence + 1 || !Verified(r, events) then Refused
    else if ApplyAll(r.view, events).Err? then Refused
    else Applied
  }

  function Finishes(events: seq<Event>, turn: string): bool {
    exists i :: 0 <= i < |events| && events[i].CompleteEvent? && events[i].turn == turn
  }

  /** pushLocked */
  function Push(r: Registration, sequence: nat, events: seq<Event>): Registration {
    if PushOutcome(r, sequence, events) != Applied then r
    else
      r.(sequence := sequence, digest := events, view := ApplyAll(r.view, events).value,
         inputs := seq(|r.inputs|, i requires 0 <= i < |r.inputs| => MatchAll(r.inputs[i], events, sequence)),
         pending := if r.pending.Some? && r.pending.value.delivered && Finishes(events, r.pending.value.turn)
                    then Some(r.pending.value.(completed := true)) else r.pending)
  }

  // ----- commands -----

  predicate Settled(input: Input) {
    input.receipt == Observed || input.receipt == Rejected
  }

  predicate LiveStatus(status: string) {
    status == "idle" || status == "active" || status == "unknown"
  }

  /** queueMutation's and stopNative's conditions */
  predicate Admits(r: Registration, op: Operation, client: string, turn: string) {
    && r.pending.None?
    && match op
       case SendInput =>
         && r.view.runtime.canInput && LiveStatus(r.view.status)
         && forall i :: 0 <= i < |r.inputs| ==> r.inputs[i].client != client && Settled(r.inputs[i])
       case StopTurn => r.view.runtime.canStop && r.view.status == "active" && turn != "" && r.view.activeTurn == turn
       case ChangeSettings => r.view.runtime.canSettings
       case Diagnose => r.desktop
  }

  function Newest(inputs: seq<Input>): seq<Input> {
    if |inputs| > MAX_ROWS then inputs[|inputs| - MAX_ROWS..] else inputs
  }

  function Queue(r: Registration, op: Operation, id: string, client: string, text: string, turn: string): Registration {
    if !Admits(r, op, client, turn) then r
    else
      var target := match op case SendInput => r.view.activeTurn case StopTurn => turn case _ => "";
      var queued := r.(pending := Some(Command(id, op, client, target, false, false, None)));
      if op != SendInput then queued
      else queued.(inputs := Newest(r.inputs + [Input(client, text, id, r.sequence, Unconfirmed, false, false, "", "")]))
  }

  /** pull's last check before the sole delivery; `scope` is the caller's revalidated scope. */
  predicate Delivers(r: Registration, scope: bool) {
    && r.pending.Some? && !r.pending.value.delivered && scope
    && match r.pending.value.op
       case StopTurn => r.view.runtime.canStop && r.view.status == "active" && r.view.activeTurn == r.pending.value.turn
       case SendInput => r.view.runtime.canInput && r.view.activeTurn == r.pending.value.turn && LiveStatus(r.view.status)
       case ChangeSettings => r.view.runtime.canSettings
       case Diagnose => r.desktop
  }

  function ClientOf(input: Input): string { input.client }

  predicate AcceptsResult(r: Registration, id: string, verdict: Verdict) {
    && r.pending.Some? && r.pending.value.delivered && r.pending.value.id == id
    && (r.pending.value.result.Some? ==> r.pending.value.result.value == verdict)
  }

  function Judged(input: Input, ok: bool): Input {
    input.(accepted := ok,
           receipt := if !ok then Rejected
                      else if input.matched then Observed
                      else if input.receipt == Observed then Observed else Submitted)
  }

  /** commandResultLocked */
  function TakeResult(r: Registration, id: string, verdict: Verdict): Registration {
    if !AcceptsResult(r, id, verdict) then r
    else
      var k := IndexOf(r.inputs, ClientOf, r.pending.value.client);
      var judged := r.(pending := Some(r.pending.value.(result := Some(verdict))));
      if r.pending.value.op != SendInput || k == |r.inputs| then judged
      else judged.(inputs := r.inputs[k := Judged(r.inputs[k], verdict.ok)])
  }

  /** unknownInput, run by the sender that still holds the pending command */
  function Doubt(r: Registration, client: string): Registration {
    var k := IndexOf(r.inputs, ClientOf, client);
    if k == |r.inputs| || r.inputs[k].receipt == Observed then r
    else r.(inputs := r.inputs[k := r.inputs[k].(receipt := Unconfirmed)])
  }

  /** Read: a submitted input past its deadline becomes unconfirmed. */
  function Overdue(inputs: seq<Input>, late: set<string>): (r: seq<Input>)
    ensures |r| == |inputs|
    ensures forall i :: 0 <= i < |r| ==>
      r[i] == if inputs[i].receipt == Submitted && inputs[i].client in late then inputs[i].(receipt := Unconfirmed) else inputs[i]
  {
    seq(|inputs|, i requires 0 <= i < |inputs| =>
      if inputs[i].receipt == Submitted && inputs[i].client in late then inputs[i].(receipt := Unconfirmed) else inputs[i])
  }

  // ----- actions -----

  datatype Action =
    | PushBatch(sequence: nat, events: seq<Event>)
    | QueueCommand(op: Operation, id: string, client: string, text: string, turn: string)
    | Pull(seen: string, scope: bool)        // `seen` is the command the pull read before revalidating
    | Result(id: string, verdict: Verdict)
    | TimeOut                                 // the sender gives up waiting
    | Release                                 // the sender returns
    | Read(late: set<string>)

  /** A fresh random id is never one already issued. */
  predicate Enabled(w: World, a: Action) {
    match a
    case QueueCommand(_, id, _, _, _) => id != "" && id !in w.past.issued
    case TimeOut => w.reg.pending.Some? && w.reg.pending.value.op == SendInput
    case Release => w.reg.pending.Some?
    case _ => true
  }

  function Step(w: World, a: Action): World
    requires Enabled(w, a)
  {
    var r := w.reg;
    match a
    case PushBatch(sequence, events) =>
      World(Push(r, sequence, events),
            if PushOutcome(r, sequence, events) == Applied then w.past.(batches := w.past.batches + [events]) else w.past)
    case QueueCommand(op, id, client, text, turn) =>
      World(Queue(r, op, id, client, text, turn), w.past.(issued := w.past.issued + {id}))
    case Pull(seen, scope) =>
      if Delivers(r, scope) && r.pending.value.id == seen
      then World(r.(pending := Some(r.pending.value.(delivered := true))), w.past.(handed := w.past.handed + [seen]))
      else w
    case Result(id, verdict) =>
      World(TakeResult(r, id, verdict),
            if AcceptsResult(r, id, verdict) then w.past.(verdicts := w.past.verdicts[id := verdict.ok]) else w.past)
    case TimeOut => w.(reg := Doubt(r, r.pending.value.client))
    case Release => w.(reg := r.(pending := None))
    case Read(late) => w.(reg := r.(inputs := Overdue(r.inputs, late)))
  }

  function Next(w: World, a: Action): World {
    if Enabled(w, a) then Step(w, a) else w
  }

  function Run(w: World, actions: seq<Action>): World
    decreases |actions|
  {
    if actions == [] then w else Next(Run(w, actions[..|actions| - 1]), actions[|actions| - 1])
  }
}

/** Batches: the view is the fold of exactly the accepted ones. */
module ModBatches {
  import opened Common
  import opened ModWindow
  import opened ModRegistration

  /** Every event of every accepted batch, oldest first. */
  ghost function Flatten(batches: seq<seq<Event>>): seq<Event> {
    if batches == [] then [] else Flatten(batches[..|batches| - 1]) + batches[|batches| - 1]
  }

  ghost predicate Folded(w: World) {
    && w.reg.sequence == |w.past.batches|
    && (w.past.batches != [] ==> w.reg.digest == w.past.batches[|w.past.batches| - 1])
    && ApplyAll(Fresh, Flatten(w.past.batches)) == Ok(w.reg.view)
    && Window(w.reg.view)
  }

  lemma {:induction false} ApplyAllSplit(v: View, a: seq<Event>, b: seq<Event>)
    requires ApplyAll(v, a).Ok?
    ensures ApplyAll(v, a + b) == ApplyAll(ApplyAll(v, a).value, b)
    decreases |b|
  {
    if b == [] {
      assert a + b == a;
    } else {
      ApplyAllSplit(v, a, b[..|b| - 1]);
      assert (a + b)[..|a + b| - 1] == a + b[..|b| - 1];
    }
  }

  lemma PushFolds(w: World, sequence: nat, events: seq<Event>)
    requires Folded(w) && PushOutcome(w.reg, sequence, events) == Applied
    ensures Folded(Step(w, PushBatch(sequence, events)))
  {
    hide ApplyAll; hide Window; hide Verified; hide MatchAll; hide Finishes;
    var batches := w.past.batches + [events];
    assert batches[..|batches| - 1] == w.past.batches;
    ApplyAllSplit(Fresh, Flatten(w.past.batches), events);
    ApplyAllKeeps(w.reg.view, events);
  }

  /** Nothing but a push touches the view. */
  lemma CommandsKeepView(w: World, a: Action)
    requires !a.PushBatch?
    ensures var t := Next(w, a);
      t.reg.view == w.reg.view && t.reg.sequence == w.reg.sequence && t.reg.digest == w.reg.digest && t.past.batches == w.past.batches
  {
  }

  lemma NextFolds(w: World, a: Action)
    requires Folded(w)
    ensures Folded(Next(w, a))
  {
    if !a.PushBatch? { CommandsKeepView(w, a); }
    else if PushOutcome(w.reg, a.sequence, a.events) == Applied { PushFolds(w, a.sequence, a.events); }
  }

  /** Whatever the Mod sends again, out of order or altered, and whatever commands interleave: sequence n
      means n accepted batches, and the view is what applying them in turn gives, within its bounds. */
  lemma {:induction false} ViewIsFold(desktop: bool, actions: seq<Action>)
    ensures Folded(Run(Registered(desktop), actions))
    decreases |actions|
  {
    if actions == [] {
      assert ApplyAll(Fresh, []) == Ok(Fresh);
    } else {
      ViewIsFold(desktop, actions[..|actions| - 1]);
      NextFolds(Run(Registered(desktop), actions[..|actions| - 1]), actions[|actions| - 1]);
    }
  }

  /** A refused batch and an exact retransmission change nothing; an accepted one is the next in sequence. */
  lemma OnlyNextBatchChanges(desktop: bool, actions: seq<Action>, sequence: nat, events: seq<Event>)
    ensures var w := Run(Registered(desktop), actions);
      var after := Next(w, PushBatch(sequence, events));
      && (PushOutcome(w.reg, sequence, events) != Applied ==> after == w)
      && (PushOutcome(w.reg, sequence, events) == Applied ==>
            sequence == |w.past.batches| + 1 && after.past.batches == w.past.batches + [events])
      && PushOutcome(after.reg, sequence, events) != Applied
      && (PushOutcome(w.reg, sequence, events) == Applied ==> PushOutcome(after.reg, sequence, events) == Repeated)
  {
    hide ApplyAll; hide Verified; hide Flatten; hide Window; hide Run;
    ViewIsFold(desktop, actions);
  }
}

/** Commands and receipts over every run of one registration. */
module ModReceipts {
  import opened Common
  import opened Search
  import opened ModWindow
  import opened ModRegistration

  /** A native event of a batch above `after` shows this input. */
  ghost predicate Evidence(input: Input, batches: seq<seq<Event>>) {
    exists k, i :: input.after <= k < |batches| && 0 <= i < |batches[k]| && Observes(batches[k][i], input)
  }

  ghost predicate InputOk(input: Input, past: History) {
    && input.command in past.issued
    && input.after <= |past.batches|
    && (input.matched ==> Evidence(input, past.batches))
    && (input.accepted ==> input.command in past.verdicts && past.verdicts[input.command])
    && (input.receipt == Submitted ==> input.accepted)
    && (input.receipt == Observed ==> input.accepted && input.matched)
    && (input.receipt == Rejected ==> !input.accepted && input.command in past.verdicts && !past.verdicts[input.command])
  }

  ghost predicate InputsOk(inputs: seq<Input>, past: History) {
    && |inputs| <= MAX_ROWS
    && (forall i :: 0 <= i < |inputs| ==> InputOk(inputs[i], past))
    && (forall i, j :: 0 <= i < j < |inputs| ==> inputs[i].client != inputs[j].client && inputs[i].command != inputs[j].command)
    && (forall i :: 0 <= i < |inputs| - 1 ==> Settled(inputs[i]))
  }

  ghost predicate PendingOk(pending: Option<Command>, inputs: seq<Input>, past: History) {
    pending.Some? ==>
      var c := pending.value;
      && c.id in past.issued
      && (c.op == SendInput ==> inputs != [] && inputs[|inputs| - 1].client == c.client && inputs[|inputs| - 1].command == c.id)
      && (c.id in past.verdicts <==> c.result.Some?)
      && (c.result.Some? ==> past.verdicts[c.id] == c.result.value.ok)
      && (c.id in past.handed <==> c.delivered)
  }

  ghost predicate HandedOk(past: History) {
    && (forall i, j :: 0 <= i < j < |past.handed| ==> past.handed[i] != past.handed[j])
    && (forall i :: 0 <= i < |past.handed| ==> past.handed[i] in past.issued)
    && (forall id :: id in past.verdicts ==> id in past.issued)
  }

  ghost predicate Inv(w: World) {
    && InputsOk(w.reg.inputs, w.past)
    && PendingOk(w.reg.pending, w.reg.inputs, w.past)
    && HandedOk(w.past)
    && w.reg.sequence == |w.past.batches|
  }

  // ----- push -----

  lemma EvidenceGrows(input: Input, batches: seq<seq<Event>>, events: seq<Event>)
    requires Evidence(input, batches)
    ensures Evidence(input, batches + [events])
  {
    var k, i :| input.after <= k < |batches| && 0 <= i < |batches[k]| && Observes(batches[k][i], input);
    assert (batches + [events])[k] == batches[k];
  }

  /** Matching one batch changes only what that batch proves. */
  lemma {:induction false} MatchAllKeeps(input: Input, past: History, events: seq<Event>, n: nat)
    requires InputOk(input, past) && n <= |events|
    ensures var m := MatchAll(input, events[..n], |past.batches| + 1);
      && m == input.(matched := m.matched, message := m.message, turn := m.turn, receipt := m.receipt)
      && InputOk(m, past.(batches := past.batches + [events]))
      && (Settled(input) ==> m.receipt == input.receipt)
    decreases n
  {
    if n == 0 {
      if input.matched { EvidenceGrows(input, past.batches, events); }
    } else {
      MatchAllKeeps(input, past, events, n - 1);
      assert events[..n][..n - 1] == events[..n - 1];
      var before := MatchAll(input, events[..n - 1], |past.batches| + 1);
      var e := events[n - 1];
      if Observes(e, before) {
        var batches := past.batches + [events];
        assert batches[|past.batches|][n - 1] == e && Observes(e, input);
        assert Evidence(Match(before, e, |past.batches| + 1), batches);
      }
    }
  }

  lemma PushKeeps(w: World, sequence: nat, events: seq<Event>)
    requires Inv(w)
    ensures Inv(Step(w, PushBatch(sequence, events)))
  {
    var r := w.reg;
    if PushOutcome(r, sequence, events) == Applied {
      var past := w.past.(batches := w.past.batches + [events]);
      var inputs := Push(r, sequence, events).inputs;
      assert events[..|events|] == events;
      forall i | 0 <= i < |inputs|
        ensures InputOk(inputs[i], past)
        ensures inputs[i].client == r.inputs[i].client && inputs[i].command == r.inputs[i].command
        ensures Settled(r.inputs[i]) ==> Settled(inputs[i])
      {
        MatchAllKeeps(r.inputs[i], w.past, events, |events|);
      }
    }
  }

  // ----- commands -----

  /** History growing by one issued id keeps every old input. */
  lemma QueueKeeps(w: World, op: Operation, id: string, client: string, text: string, turn: string)
    requires Inv(w) && id != "" && id !in w.past.issued
    ensures Inv(Step(w, QueueCommand(op, id, client, text, turn)))
  {
    var r := w.reg;
    var past := w.past.(issued := w.past.issued + {id});
    assert forall i :: 0 <= i < |r.inputs| ==> InputOk(r.inputs[i], w.past) && InputOk(r.inputs[i], past);
    if Admits(r, op, client, turn) && op == SendInput {
      var input := Input(client, text, id, r.sequence, Unconfirmed, false, false, "", "");
      assert InputOk(input, past);
      AppendKeeps(r.inputs, input, past);
    }
  }

  lemma AppendKeeps(inputs: seq<Input>, input: Input, past: History)
    requires |inputs| <= MAX_ROWS && InputOk(input, past)
    requires forall i :: 0 <= i < |inputs| ==> InputOk(inputs[i], past) && Settled(inputs[i])
    requires forall i :: 0 <= i < |inputs| ==> inputs[i].client != input.client && inputs[i].command != input.command
    requires forall i, j :: 0 <= i < j < |inputs| ==> inputs[i].client != inputs[j].client && inputs[i].command != inputs[j].command
    ensures var r := Newest(inputs + [input]); InputsOk(r, past) && r[|r| - 1] == input
  {
  }

  /** Replacing the newest input by one with the same identity. */
  lemma ReplaceNewest(inputs: seq<Input>, input: Input, past: History, past': History)
    requires InputsOk(inputs, past) && inputs != []
    requires InputOk(input, past') && input.client == inputs[|inputs| - 1].client && input.command == inputs[|inputs| - 1].command
    requires forall i :: 0 <= i < |inputs| - 1 ==> InputOk(inputs[i], past')
    ensures InputsOk(inputs[|inputs| - 1 := input], past')
  {
  }

  lemma NewestIndex(inputs: seq<Input>, past: History)
    requires InputsOk(inputs, past) && inputs != []
    ensures IndexOf(inputs, ClientOf, inputs[|inputs| - 1].client) == |inputs| - 1
  {
  }

  /** A verdict that agrees with any earlier one keeps what is known about the input it judges. */
  lemma JudgedKeeps(input: Input, past: History, ok: bool)
    requires InputOk(input, past)
    requires input.command in past.verdicts ==> past.verdicts[input.command] == ok
    ensures InputOk(Judged(input, ok), past.(verdicts := past.verdicts[input.command := ok]))
    ensures Judged(input, ok).client == input.client && Judged(input, ok).command == input.command
  {
    if input.matched {
      var k, i :| input.after <= k < |past.batches| && 0 <= i < |past.batches[k]| && Observes(past.batches[k][i], input);
      assert Observes(past.batches[k][i], Judged(input, ok));
    }
  }

  /** So does what is known about every other input. */
  lemma VerdictKeeps(inputs: seq<Input>, past: History, id: string, ok: bool)
    requires InputsOk(inputs, past)
    requires id in past.verdicts ==> past.verdicts[id] == ok
    ensures InputsOk(inputs, past.(verdicts := past.verdicts[id := ok]))
  {
    var next := past.(verdicts := past.verdicts[id := ok]);
    forall i | 0 <= i < |inputs| ensures InputOk(inputs[i], next) {
      assert InputOk(inputs[i], past);
    }
    hide InputOk;
  }

  lemma ResultInputs(w: World, id: string, verdict: Verdict)
    requires Inv(w) && AcceptsResult(w.reg, id, verdict)
    ensures var t := Step(w, Result(id, verdict));
      && InputsOk(t.reg.inputs, t.past) && |t.reg.inputs| == |w.reg.inputs|
      && (t.reg.inputs != [] ==> t.reg.inputs[|t.reg.inputs| - 1].client == w.reg.inputs[|w.reg.inputs| - 1].client
                                 && t.reg.inputs[|t.reg.inputs| - 1].command == w.reg.inputs[|w.reg.inputs| - 1].command)
  {
    hide Judged; hide InputOk; hide HandedOk;
    var r := w.reg;
    var past := w.past.(verdicts := w.past.verdicts[id := verdict.ok]);
    VerdictKeeps(r.inputs, w.past, id, verdict.ok);
    if r.pending.value.op == SendInput {
      NewestIndex(r.inputs, w.past);
      var last := r.inputs[|r.inputs| - 1];
      JudgedKeeps(last, w.past, verdict.ok);
      ReplaceNewest(r.inputs, Judged(last, verdict.ok), w.past, past);
    }
  }

  lemma ResultKeeps(w: World, id: string, verdict: Verdict)
    requires Inv(w)
    ensures Inv(Step(w, Result(id, verdict)))
  {
    hide InputsOk;
    if AcceptsResult(w.reg, id, verdict) {
      ResultInputs(w, id, verdict);
    }
  }

  lemma TimeOutKeeps(w: World)
    requires Inv(w) && Enabled(w, TimeOut)
    ensures Inv(Step(w, TimeOut))
  {
    var r := w.reg;
    NewestIndex(r.inputs, w.past);
    var last := r.inputs[|r.inputs| - 1];
    if last.receipt != Observed {
      ReplaceNewest(r.inputs, last.(receipt := Unconfirmed), w.past, w.past);
    }
  }

  /** What is known of an input survives its receipt turning unconfirmed. */
  lemma UnconfirmedKeeps(input: Input, past: History)
    requires InputOk(input, past)
    ensures InputOk(input.(receipt := Unconfirmed), past)
  {
    if input.matched {
      var k, e :| input.after <= k < |past.batches| && 0 <= e < |past.batches[k]| && Observes(past.batches[k][e], input);
      assert Observes(past.batches[k][e], input.(receipt := Unconfirmed));
    }
  }

  lemma OverdueKeeps(inputs: seq<Input>, past: History, late: set<string>)
    requires InputsOk(inputs, past)
    ensures InputsOk(Overdue(inputs, late), past)
  {
    var r := Overdue(inputs, late);
    forall i | 0 <= i < |r| ensures InputOk(r[i], past) {
      UnconfirmedKeeps(inputs[i], past);
    }
    hide InputOk;
  }

  lemma ReadKeeps(w: World, late: set<string>)
    requires Inv(w)
    ensures Inv(Step(w, Read(late)))
  {
    hide InputOk; hide HandedOk; hide Overdue;
    OverdueKeeps(w.reg.inputs, w.past, late);
    hide InputsOk;
  }

  lemma PullKeeps(w: World, seen: string, scope: bool)
    requires Inv(w)
    ensures Inv(Step(w, Pull(seen, scope)))
  {
    var t := Step(w, Pull(seen, scope));
    assert forall i :: 0 <= i < |w.reg.inputs| && InputOk(w.reg.inputs[i], w.past) ==> InputOk(w.reg.inputs[i], t.past);
  }

  lemma NextKeeps(w: World, a: Action)
    requires Inv(w)
    ensures Inv(Next(w, a))
  {
    if Enabled(w, a) {
      match a
      case PushBatch(sequence, events) => PushKeeps(w, sequence, events);
      case QueueCommand(op, id, client, text, turn) => QueueKeeps(w, op, id, client, text, turn);
      case Pull(seen, scope) => PullKeeps(w, seen, scope);
      case Result(id, verdict) => ResultKeeps(w, id, verdict);
      case TimeOut => TimeOutKeeps(w);
      case Release =>
      case Read(late) => ReadKeeps(w, late);
    }
  }

  lemma {:induction false} Reachable(desktop: bool, actions: seq<Action>)
    ensures Inv(Run(Registered(desktop), actions))
    decreases |actions|
  {
    if actions != [] {
      Reachable(desktop, actions[..|actions| - 1]);
      NextKeeps(Run(Registered(desktop), actions[..|actions| - 1]), actions[|actions| - 1]);
    }
  }

  // ----- what callers may rely on -----

  /** Every retained input of this command is rejected, and the command is spent. */
  ghost predicate Refuted(w: World, command: string) {
    command in w.past.issued && forall j :: 0 <= j < |w.reg.inputs| && w.reg.inputs[j].command == command ==> w.reg.inputs[j].receipt == Rejected
  }

  /** The sender of this command, still holding it, times out. */
  ghost predicate TimesOut(w: World, a: Action, command: string) {
    a == TimeOut && w.reg.pending.Some? && w.reg.pending.value.op == SendInput && w.reg.pending.value.id == command
  }

  /** A rejected receipt is not final: while its input is retained it changes exactly when its own sender, still
      holding the command, times out. */
  lemma RejectedUntilTimeOut(desktop: bool, actions: seq<Action>, a: Action, i: nat)
    requires var inputs := Run(Registered(desktop), actions).reg.inputs; i < |inputs| && inputs[i].receipt == Rejected
    ensures var w := Run(Registered(desktop), actions); var command := w.reg.inputs[i].command;
      Refuted(Next(w, a), command) <==> !TimesOut(w, a, command)
  {
    Reachable(desktop, actions);
    var w := Run(Registered(desktop), actions);
    var command := w.reg.inputs[i].command;
    assert InputOk(w.reg.inputs[i], w.past);
    if TimesOut(w, a, command) {
      NewestIndex(w.reg.inputs, w.past);
      var after := Next(w, a).reg.inputs;
      assert after[|after| - 1].command == command && after[|after| - 1].receipt == Unconfirmed;
    } else {
      NextKeepsRefuted(w, a, command);
    }
  }

  lemma NextKeepsRefuted(w: World, a: Action, command: string)
    requires Inv(w) && Refuted(w, command) && !TimesOut(w, a, command)
    ensures Refuted(Next(w, a), command)
  {
    hide InputOk; hide HandedOk; hide Push; hide TakeResult;
    match a
    case PushBatch(sequence, events) => PushKeepsRefuted(w, sequence, events, command);
    case Result(id, verdict) => ResultKeepsRefuted(w, id, verdict, command);
    case TimeOut => if Enabled(w, a) { NewestIndex(w.reg.inputs, w.past); }
    case _ =>
  }

  lemma PushKeepsRefuted(w: World, sequence: nat, events: seq<Event>, command: string)
    requires Inv(w) && Refuted(w, command)
    ensures Refuted(Step(w, PushBatch(sequence, events)), command)
  {
    if PushOutcome(w.reg, sequence, events) == Applied {
      var inputs := Push(w.reg, sequence, events).inputs;
      assert events[..|events|] == events;
      forall j | 0 <= j < |inputs| && inputs[j].command == command ensures inputs[j].receipt == Rejected {
        MatchAllKeeps(w.reg.inputs[j], w.past, events, |events|);
      }
    }
  }

  lemma ResultKeepsRefuted(w: World, id: string, verdict: Verdict, command: string)
    requires Inv(w) && Refuted(w, command)
    ensures Refuted(Step(w, Result(id, verdict)), command)
  {
    if AcceptsResult(w.reg, id, verdict) && w.reg.pending.value.op == SendInput {
      NewestIndex(w.reg.inputs, w.past);
      assert InputOk(w.reg.inputs[|w.reg.inputs| - 1], w.past);
    }
  }

  lemma NoRun(w: World)
    ensures Run(w, []) == w
  {
  }

  lemma RunThen(w: World, actions: seq<Action>, a: Action)
    ensures Run(w, actions + [a]) == Next(Run(w, actions), a)
  {
    assert (actions + [a])[..|actions|] == actions;
  }

  /** A first batch by which native offers to take input. */
  lemma Offered(offer: Runtime)
    requires offer.canInput
    ensures var t := Next(Registered(false), PushBatch(1, [SnapshotEvent(offer)]));
      && t.reg.view.runtime.canInput && LiveStatus(t.reg.view.status) && t.reg.view.activeTurn == ""
      && t.reg.inputs == [] && t.reg.pending == None && t.reg.sequence == 1 && t.past.issued == {}
  {
    var event := SnapshotEvent(offer);
    assert [event][..0] == [];
    assert ApplyAll(Fresh, [event][..0]) == Ok(Fresh);
    assert ApplyAll(Fresh, [event]) == Apply(Fresh, event);
    assert PushOutcome(Registered(false).reg, 1, [event]) == Applied;
  }

  /** The run that hands the Mod one input command. */
  lemma HandedOut() returns (actions: seq<Action>)
    ensures var r := Run(Registered(false), actions).reg;
      && r.pending == Some(Command("id", SendInput, "client", "", true, false, None))
      && r.inputs == [Input("client", "text", "id", 1, Unconfirmed, false, false, "", "")]
  {
    hide ApplyAll; hide Push; hide Run;
    var w := Registered(false);
    var offer := Runtime(false, true, false, [], None, None, None, None);
    var push := PushBatch(1, [SnapshotEvent(offer)]);
    var queue := QueueCommand(SendInput, "id", "client", "text", "");
    var pull := Pull("id", true);
    Offered(offer);
    NoRun(w);
    RunThen(w, [], push);
    RunThen(w, [] + [push], queue);
    RunThen(w, [] + [push] + [queue], pull);
    actions := [] + [push] + [queue] + [pull];
  }

  /** A run in which a rejected receipt is overwritten: the Mod refuses an input, and its sender times out
      before it has let go of the command. */
  lemma RejectedIsOverwritten() returns (actions: seq<Action>)
    ensures var w := Run(Registered(false), actions);
      && |w.reg.inputs| == 1 && w.reg.inputs[0].receipt == Rejected
      && Enabled(w, TimeOut)
      && Next(w, TimeOut).reg.inputs[0].receipt == Unconfirmed && !Refuted(Next(w, TimeOut), w.reg.inputs[0].command)
  {
    var before := HandedOut();
    var verdict := Verdict(false, "");
    RunThen(Registered(false), before, Result("id", verdict));
    actions := before + [Result("id", verdict)];
  }

  /** Only the newest input may be in doubt, client ids are distinct, and each command is delivered at most once. */
  lemma OneInputInDoubt(desktop: bool, actions: seq<Action>)
    ensures var w := Run(Registered(desktop), actions);
      && (forall i :: 0 <= i < |w.reg.inputs| - 1 ==> Settled(w.reg.inputs[i]))
      && (forall i, j :: 0 <= i < j < |w.reg.inputs| ==> w.reg.inputs[i].client != w.reg.inputs[j].client)
      && (forall i, j :: 0 <= i < j < |w.past.handed| ==> w.past.handed[i] != w.past.handed[j])
  {
    Reachable(desktop, actions);
  }

  /** An observed receipt rests on an accepting result and on a native event of its command
      and text in a batch whose sequence number is above the input's. */
  lemma ObservedIsProved(desktop: bool, actions: seq<Action>, i: nat)
    requires var inputs := Run(Registered(desktop), actions).reg.inputs; i < |inputs| && inputs[i].receipt == Observed
    ensures var w := Run(Registered(desktop), actions); var input := w.reg.inputs[i];
      && input.command in w.past.verdicts && w.past.verdicts[input.command]
      && exists k, e :: input.after < k + 1 <= |w.past.batches| && 0 <= e < |w.past.batches[k]| && Observes(w.past.batches[k][e], input)
  {
    Reachable(desktop, actions);
    var w := Run(Registered(desktop), actions);
    var input := w.reg.inputs[i];
    assert InputOk(input, w.past);
    var k, e :| input.after <= k < |w.past.batches| && 0 <= e < |w.past.batches[k]| && Observes(w.past.batches[k][e], input);
  }

  /** Every retained input with this command is observed, and the command is spent. */
  ghost predicate Final(w: World, command: string) {
    command in w.past.issued && forall j :: 0 <= j < |w.reg.inputs| && w.reg.inputs[j].command == command ==> w.reg.inputs[j].receipt == Observed
  }

  lemma PushKeepsFinal(w: World, sequence: nat, events: seq<Event>, command: string)
    requires Inv(w) && Final(w, command)
    ensures Final(Step(w, PushBatch(sequence, events)), command)
  {
    if PushOutcome(w.reg, sequence, events) == Applied {
      var inputs := Push(w.reg, sequence, events).inputs;
      assert events[..|events|] == events;
      forall j | 0 <= j < |inputs| && inputs[j].command == command ensures inputs[j].receipt == Observed {
        MatchAllKeeps(w.reg.inputs[j], w.past, events, |events|);
      }
    }
  }

  lemma ResultKeepsFinal(w: World, id: string, verdict: Verdict, command: string)
    requires Inv(w) && Final(w, command)
    ensures Final(Step(w, Result(id, verdict)), command)
  {
    if AcceptsResult(w.reg, id, verdict) && w.reg.pending.value.op == SendInput {
      NewestIndex(w.reg.inputs, w.past);
      assert InputOk(w.reg.inputs[|w.reg.inputs| - 1], w.past);
    }
  }

  lemma NextKeepsFinal(w: World, a: Action, command: string)
    requires Inv(w) && Final(w, command)
    ensures Final(Next(w, a), command)
  {
    match a
    case PushBatch(sequence, events) => PushKeepsFinal(w, sequence, events, command);
    case Result(id, verdict) => ResultKeepsFinal(w, id, verdict, command);
    case _ =>
  }

  /** Observed is final: whatever happens later, while the input is retained it stays observed. */
  lemma {:induction false} ObservedIsFinal(desktop: bool, actions: seq<Action>, more: seq<Action>, i: nat)
    requires var inputs := Run(Registered(desktop), actions).reg.inputs; i < |inputs| && inputs[i].receipt == Observed
    ensures Final(Run(Registered(desktop), actions + more), Run(Registered(desktop), actions).reg.inputs[i].command)
    decreases |more|
  {
    var w := Run(Registered(desktop), actions);
    Reachable(desktop, actions);
    if more == [] {
      assert actions + more == actions;
      assert InputOk(w.reg.inputs[i], w.past);
    } else {
      var shorter := more[..|more| - 1];
      ObservedIsFinal(desktop, actions, shorter, i);
      Reachable(desktop, actions + shorter);
      NextKeepsFinal(Run(Registered(desktop), actions + shorter), more[|more| - 1], w.reg.inputs[i].command);
      assert (actions + more)[..|actions + more| - 1] == actions + shorter;
    }
  }
}

/** The registration as the code has it: an object updated under the adapter's lock. */
module ModSession {
  import opened Common
  import opened Search
  import opened ModWindow
  import opened ModRegistration

  /** One event of a batch, with the code's own loops. */
  method ApplyEvent(v: View, e: Event) returns (r: Result<View>)
    requires Window(v)
    ensures r == Apply(v, e)
  {
    match e {
      case RowEvent(uuid, role, text, _) => r := AppendLocked(v, uuid, role, text);
      case BlockEvent(turn, block) => r := ProjectBlockLocked(v, turn, block);
      case CompleteEvent(turn, aborted) =>
        var rows := FinishObservedBlocks(v.rows, turn, aborted);
        var finished := v.(rows := rows);
        if v.activeTurn == turn { finished := finished.(activeTurn := "", completedTurn := turn, status := "idle"); }
        r := Ok(finished);
      case _ => r := Apply(v, e);
    }
  }

  class Session {
    const desktop: bool
    var sequence: nat
    var digest: seq<Event>
    var view: View
    var inputs: seq<Input>
    var pending: Option<Command>

    ghost function Abs(): Registration
      reads this
    {
      Registration(desktop, sequence, digest, view, inputs, pending)
    }

    constructor (desktop: bool)
      ensures Abs() == Registered(desktop).reg
    {
      this.desktop := desktop;
      sequence, digest, view, inputs, pending := 0, [], Fresh, [], None;
    }

    /** Applies a validated batch atomically. */
    method PushLocked(sequence: nat, events: seq<Event>) returns (outcome: Outcome)
      requires Window(view)
      modifies this
      ensures Abs() == Push(old(Abs()), sequence, events) && outcome == PushOutcome(old(Abs()), sequence, events)
    {
      hide ValidEvent; hide MatchAll; hide ApplyAll; hide Window;
      if |events| == 0 || |events| > MAX_EVENTS { return Refused; }
      if sequence == this.sequence && sequence != 0 && events == digest { return Repeated; }
      if sequence != this.sequence + 1 { return Refused; }
      for i := 0 to |events|
        invariant forall j :: 0 <= j < i ==> ValidEvent(events[j], desktop)
      {
        if !ValidEvent(events[i], desktop) { return Refused; }
      }
      var working := WorkingCopy(view, events);
      if working.Err? { return Refused; }
      var attempts := MatchInputs(inputs, events, sequence);
      this.sequence, digest, view, inputs := sequence, events, working.value, attempts;
      if pending.Some? {
        for i := 0 to |events|
          invariant pending.Some? && pending.value == old(pending).value.(completed := pending.value.completed)
          invariant pending.value.completed ==
            (old(pending).value.completed || (old(pending).value.delivered && Finishes(events[..i], old(pending).value.turn)))
          modifies this`pending
        {
          assert events[..i + 1] == events[..i] + [events[i]];
          FinishesSnoc(events[..i], events[i], pending.value.turn);
          if events[i].CompleteEvent? && events[i].turn == pending.value.turn && pending.value.delivered {
            pending := Some(pending.value.(completed := true));
          }
        }
        assert events[..|events|] == events;
      }
      return Applied;
    }

    /** queueMutation and the first half of stopNative. */
    method QueueMutation(op: Operation, id: string, client: string, text: string, turn: string) returns (ok: bool)
      modifies this`inputs, this`pending
      ensures Abs() == Queue(old(Abs()), op, id, client, text, turn) && ok == Admits(old(Abs()), op, client, turn)
    {
      if pending.Some? { return false; }
      match op {
        case SendInput =>
          if !view.runtime.canInput || !LiveStatus(view.status) { return false; }
          for i := 0 to |inputs|
            invariant forall j :: 0 <= j < i ==> inputs[j].client != client && Settled(inputs[j])
          {
            if inputs[i].client == client || !Settled(inputs[i]) { return false; }
          }
          inputs := inputs + [Input(client, text, id, sequence, Unconfirmed, false, false, "", "")];
          if |inputs| > MAX_ROWS { inputs := inputs[|inputs| - MAX_ROWS..]; }
          pending := Some(Command(id, op, client, view.activeTurn, false, false, None));
        case StopTurn =>
          if !view.runtime.canStop || view.status != "active" || turn == "" || view.activeTurn != turn { return false; }
          pending := Some(Command(id, op, client, turn, false, false, None));
        case ChangeSettings =>
          if !view.runtime.canSettings { return false; }
          pending := Some(Command(id, op, client, "", false, false, None));
        case Diagnose =>
          if !desktop { return false; }
          pending := Some(Command(id, op, client, "", false, false, None));
      }
      return true;
    }

    method CommandResultLocked(id: string, verdict: Verdict) returns (ok: bool)
      modifies this`inputs, this`pending
      ensures Abs() == TakeResult(old(Abs()), id, verdict) && ok == AcceptsResult(old(Abs()), id, verdict)
    {
      if pending.None? || !pending.value.delivered || pending.value.id != id { return false; }
      if pending.value.result.Some? && pending.value.result.value != verdict { return false; }
      pending := Some(pending.value.(result := Some(verdict)));
      if pending.value.op == SendInput {
        var k := IndexOf(inputs, ClientOf, pending.value.client);
        if k < |inputs| {
          var input := inputs[k].(accepted := verdict.ok);
          if !verdict.ok {
            input := input.(receipt := Rejected);
          } else if input.matched {
            input := input.(receipt := Observed);
          } else if input.receipt != Observed {
            input := input.(receipt := Submitted);
          }
          inputs := inputs[k := input];
        }
      }
      return true;
    }

    method UnknownInput(client: string) returns (receipt: Receipt)
      modifies this`inputs
      ensures Abs() == Doubt(old(Abs()), client)
      ensures receipt == Observed || receipt == Unconfirmed
      ensures receipt == Observed <==>
        exists i :: 0 <= i < |old(inputs)| && old(inputs)[i].client == client && old(inputs)[i].receipt == Observed
                    && forall j :: 0 <= j < i ==> old(inputs)[j].client != client
    {
      var k := IndexOf(inputs, ClientOf, client);
      if k < |inputs| {
        if inputs[k].receipt == Observed { return Observed; }
        inputs := inputs[k := inputs[k].(receipt := Unconfirmed)];
      }
      return Unconfirmed;
    }
  }

  lemma FinishesSnoc(events: seq<Event>, e: Event, turn: string)
    ensures Finishes(events + [e], turn) <==> Finishes(events, turn) || (e.CompleteEvent? && e.turn == turn)
  {
    var longer := events + [e];
    assert longer[|events|] == e;
    if Finishes(events, turn) {
      var i :| 0 <= i < |events| && events[i].CompleteEvent? && events[i].turn == turn;
      assert longer[i] == events[i];
    }
  }

  /** The working copy's view after the whole batch, or the first refusal. */
  method WorkingCopy(view: View, events: seq<Event>) returns (working: Result<View>)
    requires Window(view)
    ensures working == ApplyAll(view, events)
  {
    working := Ok(view);
    for i := 0 to |events|
      invariant working.Ok? && working == ApplyAll(view, events[..i]) && Window(working.value)
    {
      assert events[..i + 1][..i] == events[..i];
      var next := ApplyEvent(working.value, events[i]);
      if next.Err? {
        ErrorStays(view, events, i + 1);
        return next;
      }
      ApplyKeeps(working.value, events[i]);
      working := next;
    }
    assert events[..|events|] == events;
  }

  lemma {:induction false} ErrorStays(view: View, events: seq<Event>, n: nat)
    requires n <= |events| && ApplyAll(view, events[..n]).Err?
    ensures ApplyAll(view, events) == ApplyAll(view, events[..n])
    decreases |events| - n
  {
    if n == |events| {
      assert events[..n] == events;
    } else {
      assert events[..n + 1][..n] == events[..n];
      ErrorStays(view, events, n + 1);
    }
  }

  method MatchInputs(inputs: seq<Input>, events: seq<Event>, sequence: nat) returns (attempts: seq<Input>)
    ensures |attempts| == |inputs|
    ensures forall j :: 0 <= j < |inputs| ==> attempts[j] == MatchAll(inputs[j], events, sequence)
  {
    attempts := inputs;
    for i := 0 to |events|
      invariant |attempts| == |inputs|
      invariant forall j :: 0 <= j < |inputs| ==> attempts[j] == MatchAll(inputs[j], events[..i], sequence)
    {
      assert events[..i + 1][..i] == events[..i];
      for k := 0 to |attempts|
        invariant |attempts| == |inputs|
        invariant forall j :: 0 <= j < k ==> attempts[j] == MatchAll(inputs[j], events[..i + 1], sequence)
        invariant forall j :: k <= j < |inputs| ==> attempts[j] == MatchAll(inputs[j], events[..i], sequence)
      {
        attempts := attempts[k := Match(attempts[k], events[i], sequence)];
      }
    }
    assert events[..|events|] == events;
  }
}
