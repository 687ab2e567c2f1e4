/**
 What a receipt says, from the run alone: every retained input of every run has
 exactly the receipt that its verdict, its native events and its deadlines give.
 */
module ModOrigins {
  import opened Common
  import opened Search
  import opened ModWindow
  import opened ModRegistration
  import opened ModReceipts

  ghost function At(desktop: bool, actions: seq<Action>): World { Run(Registered(desktop), actions) }

  // ----- the verdict -----

  /** The Mod answers the command that it was handed, and does not contradict itself. */
  ghost predicate Answers(w: World, a: Action, id: string) {
    && a.Result? && a.id == id && w.reg.pending.Some?
    && var c := w.reg.pending.value;
      c.id == id && c.delivered && (c.result.Some? ==> c.result.value == a.verdict)
  }

  /** What the Mod last answered. */
  ghost function VerdictOf(desktop: bool, actions: seq<Action>, id: string): Option<bool>
    decreases |actions|
  {
    if actions == [] then None
    else
      var before, a := actions[..|actions| - 1], actions[|actions| - 1];
      if Answers(At(desktop, before), a, id) then Some(a.verdict.ok) else VerdictOf(desktop, before, id)
  }

  /** The sender gives up, or an input that was accepted is past its deadline. */
  ghost predicate Doubts(w: World, a: Action, id: string, client: string, verdict: Option<bool>) {
    TimesOut(w, a, id) || (a.Read? && client in a.late && verdict == Some(true))
  }

  /** The answer was not doubted since it was last given. */
  ghost predicate Stands(desktop: bool, actions: seq<Action>, id: string, client: string)
    decreases |actions|
  {
    actions != [] &&
    var before, a := actions[..|actions| - 1], actions[|actions| - 1];
    var w := At(desktop, before);
    Answers(w, a, id) || (Stands(desktop, before, id, client) && !Doubts(w, a, id, client, VerdictOf(desktop, before, id)))
  }

  // ----- the native event -----

  /** The last event that shows this input. */
  ghost function LastIn(events: seq<Event>, input: Input): Option<Event> {
    if events == [] then None
    else if Observes(events[|events| - 1], input) then Some(events[|events| - 1])
    else LastIn(events[..|events| - 1], input)
  }

  /** The last such event of the batches accepted since the input was submitted. */
  ghost function Sighting(batches: seq<seq<Event>>, input: Input): Option<Event> {
    if |batches| <= input.after then None
    else
      var n := |batches| - 1;
      var last := LastIn(batches[n], input);
      if last.Some? then last else Sighting(batches[..n], input)
  }

  lemma {:induction false} LastInIff(events: seq<Event>, input: Input)
    ensures LastIn(events, input).Some? <==> exists i :: 0 <= i < |events| && Observes(events[i], input)
  {
    if events != [] && !Observes(events[|events| - 1], input) {
      LastInIff(events[..|events| - 1], input);
    }
  }

  lemma {:induction false} SightingIff(batches: seq<seq<Event>>, input: Input)
    ensures Sighting(batches, input).Some? <==> Evidence(input, batches)
  {
    if |batches| > input.after {
      var n := |batches| - 1;
      LastInIff(batches[n], input);
      SightingIff(batches[..n], input);
      assert forall k :: 0 <= k < n ==> batches[..n][k] == batches[k];
    }
  }

  // ----- the receipt -----

  /** The receipt of an input with this verdict, standing or not, and this sighting. */
  ghost function ReceiptFor(verdict: Option<bool>, stands: bool, seen: bool): Receipt {
    if verdict.None? then Unconfirmed
    else if verdict.value && seen then Observed
    else if stands then (if verdict.value then Submitted else Rejected)
    else Unconfirmed
  }

  ghost predicate Told(input: Input, verdict: Option<bool>, stands: bool, seen: Option<Event>) {
    && input.accepted == (verdict == Some(true))
    && input.matched == seen.Some?
    && (seen.Some? ==> (seen.value.RowEvent? || seen.value.StartEvent?) && input.message == seen.value.uuid
                       && input.turn == if seen.value.StartEvent? then seen.value.turn else "")
    && (seen.None? ==> input.message == "" && input.turn == "")
    && input.receipt == ReceiptFor(verdict, stands, seen.Some?)
  }

  ghost predicate InputTold(desktop: bool, actions: seq<Action>, input: Input) {
    Told(input, VerdictOf(desktop, actions, input.command), Stands(desktop, actions, input.command, input.client),
         Sighting(At(desktop, actions).past.batches, input))
  }

  /** The same submission, whatever is known of it. */
  ghost predicate Same(x: Input, y: Input) {
    x.client == y.client && x.command == y.command && x.text == y.text && x.after == y.after
  }

  lemma {:induction false} SameSighting(batches: seq<seq<Event>>, x: Input, y: Input)
    requires Same(x, y)
    ensures Sighting(batches, x) == Sighting(batches, y)
  {
    if |batches| > x.after {
      SameLastIn(batches[|batches| - 1], x, y);
      SameSighting(batches[..|batches| - 1], x, y);
    }
  }

  lemma {:induction false} SameLastIn(events: seq<Event>, x: Input, y: Input)
    requires Same(x, y)
    ensures LastIn(events, x) == LastIn(events, y)
  {
    if events != [] { SameLastIn(events[..|events| - 1], x, y); }
  }

  // ----- each action -----

  ghost function Or(first: Option<Event>, second: Option<Event>): Option<Event> { if first.Some? then first else second }

  lemma {:induction false} MatchTells(input: Input, events: seq<Event>, sequence: nat, verdict: Option<bool>, stands: bool, seen: Option<Event>)
    requires Told(input, verdict, stands, seen) && input.after < sequence
    ensures Told(MatchAll(input, events, sequence), verdict, stands, Or(LastIn(events, input), seen))
    ensures Same(input, MatchAll(input, events, sequence))
    decreases |events|
  {
    if events != [] { MatchTells(input, events[..|events| - 1], sequence, verdict, stands, seen); }
  }

  /** Two commands are never confused: only an input's own command has its id. */
  ghost predicate Apart(w: World) {
    w.reg.pending.Some? && w.reg.pending.value.op != SendInput ==>
      forall i :: 0 <= i < |w.reg.inputs| ==> w.reg.inputs[i].command != w.reg.pending.value.id
  }

  lemma NextApart(w: World, a: Action)
    requires Inv(w) && Apart(w)
    ensures Apart(Next(w, a))
  {
    hide Push; hide TakeResult; hide Doubt; hide InputOk;
    if Enabled(w, a) {
      match a
      case PushBatch(sequence, events) => PushSame(w, sequence, events);
      case Result(id, verdict) => ResultSame(w, id, verdict);
      case TimeOut => DoubtSame(w.reg, w.reg.pending.value.client);
      case QueueCommand(op, id, client, text, turn) => QueueApart(w, op, id, client, text, turn);
      case _ =>
    }
  }

  lemma QueueApart(w: World, op: Operation, id: string, client: string, text: string, turn: string)
    requires Inv(w) && Apart(w) && id !in w.past.issued
    ensures var r := Queue(w.reg, op, id, client, text, turn);
      r.pending.Some? && r.pending.value.op != SendInput ==> forall i :: 0 <= i < |r.inputs| ==> r.inputs[i].command != r.pending.value.id
  {
    assert forall i :: 0 <= i < |w.reg.inputs| ==> InputOk(w.reg.inputs[i], w.past);
  }

  ghost predicate SameAll(r: Registration, t: Registration) {
    && |r.inputs| == |t.inputs| && (forall i :: 0 <= i < |r.inputs| ==> Same(r.inputs[i], t.inputs[i]))
    && r.pending.Some? == t.pending.Some?
    && (r.pending.Some? ==> r.pending.value.id == t.pending.value.id && r.pending.value.op == t.pending.value.op)
  }

  lemma {:induction false} MatchSame(input: Input, events: seq<Event>, sequence: nat)
    ensures Same(input, MatchAll(input, events, sequence))
    decreases |events|
  {
    if events != [] { MatchSame(input, events[..|events| - 1], sequence); }
  }

  lemma PushSame(w: World, sequence: nat, events: seq<Event>)
    ensures SameAll(w.reg, Push(w.reg, sequence, events))
  {
    hide ApplyAll; hide Verified; hide MatchAll; hide PushOutcome;
    forall i | 0 <= i < |w.reg.inputs| ensures Same(w.reg.inputs[i], MatchAll(w.reg.inputs[i], events, sequence)) {
      MatchSame(w.reg.inputs[i], events, sequence);
    }
  }

  lemma ResultSame(w: World, id: string, verdict: Verdict)
    ensures SameAll(w.reg, TakeResult(w.reg, id, verdict))
  {
  }

  lemma DoubtSame(r: Registration, client: string)
    ensures SameAll(r, Doubt(r, client))
  {
  }

  lemma PushTells(w: World, sequence: nat, events: seq<Event>, i: nat, verdict: Option<bool>, stands: bool)
    requires Inv(w) && i < |w.reg.inputs| && Told(w.reg.inputs[i], verdict, stands, Sighting(w.past.batches, w.reg.inputs[i]))
    ensures var t := Next(w, PushBatch(sequence, events));
      i < |t.reg.inputs| && Told(t.reg.inputs[i], verdict, stands, Sighting(t.past.batches, w.reg.inputs[i]))
  {
    hide ApplyAll; hide Verified; hide MatchAll; hide Told; hide LastIn; hide Finishes;
    var x, batches := w.reg.inputs[i], w.past.batches;
    assert InputOk(x, w.past);
    if PushOutcome(w.reg, sequence, events) == Applied {
      MatchTells(x, events, sequence, verdict, stands, Sighting(batches, x));
      assert (batches + [events])[..|batches|] == batches;
      assert Sighting(batches + [events], x) == Or(LastIn(events, x), Sighting(batches, x));
    }
  }

  /** The pending command is that of the newest input, or of none. */
  lemma PendingInput(w: World, i: nat)
    requires Inv(w) && Apart(w) && w.reg.pending.Some? && i < |w.reg.inputs|
    ensures var c := w.reg.pending.value;
      && (w.reg.inputs[i].command == c.id <==> c.op == SendInput && i == |w.reg.inputs| - 1)
      && (c.op == SendInput ==> IndexOf(w.reg.inputs, ClientOf, c.client) == |w.reg.inputs| - 1)
  {
    hide InputOk; hide HandedOk;
    NewestIndex(w.reg.inputs, w.past);
  }

  lemma ResultTells(w: World, id: string, answer: Verdict, i: nat, verdict: Option<bool>, stands: bool)
    requires Inv(w) && Apart(w) && i < |w.reg.inputs|
    requires Told(w.reg.inputs[i], verdict, stands, Sighting(w.past.batches, w.reg.inputs[i]))
    ensures var t, x := Next(w, Result(id, answer)), w.reg.inputs[i];
      var answered := Answers(w, Result(id, answer), x.command);
      && i < |t.reg.inputs|
      && Told(t.reg.inputs[i], if answered then Some(answer.ok) else verdict, answered || stands, Sighting(t.past.batches, x))
  {
    hide Sighting; hide Inv; hide Apart; hide IndexOf;
    if w.reg.pending.Some? { PendingInput(w, i); }
  }

  lemma TimeOutTells(w: World, i: nat, verdict: Option<bool>, stands: bool)
    requires Inv(w) && Apart(w) && i < |w.reg.inputs|
    requires Told(w.reg.inputs[i], verdict, stands, Sighting(w.past.batches, w.reg.inputs[i]))
    ensures var t, x := Next(w, TimeOut), w.reg.inputs[i];
      i < |t.reg.inputs| && Told(t.reg.inputs[i], verdict, stands && !TimesOut(w, TimeOut, x.command), Sighting(t.past.batches, x))
  {
    hide Sighting; hide Inv; hide Apart; hide IndexOf;
    if Enabled(w, TimeOut) { PendingInput(w, i); }
  }

  lemma ReadTells(w: World, late: set<string>, i: nat, verdict: Option<bool>, stands: bool)
    requires i < |w.reg.inputs| && Told(w.reg.inputs[i], verdict, stands, Sighting(w.past.batches, w.reg.inputs[i]))
    ensures var t, x := Next(w, Read(late)), w.reg.inputs[i];
      && i < |t.reg.inputs|
      && Told(t.reg.inputs[i], verdict, stands && !(x.client in late && verdict == Some(true)), Sighting(t.past.batches, x))
  {
    hide Sighting;
  }

  /** Whatever happens but a new command, input i stays where it is, and is told as before or as the action tells. */
  lemma NextTells(w: World, a: Action, i: nat, verdict: Option<bool>, stands: bool)
    requires Inv(w) && Apart(w) && !a.QueueCommand? && i < |w.reg.inputs|
    requires Told(w.reg.inputs[i], verdict, stands, Sighting(w.past.batches, w.reg.inputs[i]))
    ensures var t, x := Next(w, a), w.reg.inputs[i];
      && i < |t.reg.inputs|
      && Told(t.reg.inputs[i], if Answers(w, a, x.command) then Some(a.verdict.ok) else verdict,
              Answers(w, a, x.command) || (stands && !Doubts(w, a, x.command, x.client, verdict)), Sighting(t.past.batches, x))
  {
    hide Told; hide Sighting; hide Inv; hide Apart; hide Push; hide TakeResult; hide Doubt;
    match a
    case PushBatch(sequence, events) => PushTells(w, sequence, events, i, verdict, stands);
    case Result(id, answer) => ResultTells(w, id, answer, i, verdict, stands);
    case TimeOut => TimeOutTells(w, i, verdict, stands);
    case Read(late) => ReadTells(w, late, i, verdict, stands);
    case Pull(_, _) =>
    case Release =>
  }

  lemma NextSame(w: World, a: Action, i: nat)
    requires !a.QueueCommand? && i < |w.reg.inputs|
    ensures var t := Next(w, a); |t.reg.inputs| == |w.reg.inputs| && Same(w.reg.inputs[i], t.reg.inputs[i])
  {
    hide Push; hide TakeResult; hide Doubt;
    if Enabled(w, a) {
      match a
      case PushBatch(sequence, events) => PushSame(w, sequence, events);
      case Result(id, verdict) => ResultSame(w, id, verdict);
      case TimeOut => DoubtSame(w.reg, w.reg.pending.value.client);
      case _ =>
    }
  }

  // ----- every run -----

  lemma {:induction false} Issued(desktop: bool, actions: seq<Action>, id: string)
    requires VerdictOf(desktop, actions, id).Some?
    ensures id in At(desktop, actions).past.issued
    decreases |actions|
  {
    var before, a := actions[..|actions| - 1], actions[|actions| - 1];
    Reachable(desktop, before);
    if !Answers(At(desktop, before), a, id) { Issued(desktop, before, id); }
  }

  lemma {:induction false} StandsAnswered(desktop: bool, actions: seq<Action>, id: string, client: string)
    requires Stands(desktop, actions, id, client)
    ensures VerdictOf(desktop, actions, id).Some?
    decreases |actions|
  {
    var before, a := actions[..|actions| - 1], actions[|actions| - 1];
    if !Answers(At(desktop, before), a, id) { StandsAnswered(desktop, before, id, client); }
  }

  /** A command that was never issued has no verdict. */
  lemma NewCommand(desktop: bool, actions: seq<Action>, id: string, client: string)
    requires id !in At(desktop, actions).past.issued
    ensures VerdictOf(desktop, actions, id).None? && !Stands(desktop, actions, id, client)
  {
    if VerdictOf(desktop, actions, id).Some? { Issued(desktop, actions, id); }
    if Stands(desktop, actions, id, client) { StandsAnswered(desktop, actions, id, client); }
  }

  ghost predicate AllTold(desktop: bool, actions: seq<Action>) {
    forall i :: 0 <= i < |At(desktop, actions).reg.inputs| ==> InputTold(desktop, actions, At(desktop, actions).reg.inputs[i])
  }

  lemma StepAllTold(desktop: bool, actions: seq<Action>, i: nat)
    requires actions != [] && AllTold(desktop, actions[..|actions| - 1]) && !actions[|actions| - 1].QueueCommand?
    requires var w := At(desktop, actions[..|actions| - 1]); Inv(w) && Apart(w)
    requires i < |At(desktop, actions).reg.inputs|
    ensures InputTold(desktop, actions, At(desktop, actions).reg.inputs[i])
  {
    hide Inv; hide Apart; hide Answers; hide Doubts; hide Told; hide Sighting; hide Next;
    var before, a := actions[..|actions| - 1], actions[|actions| - 1];
    var w := At(desktop, before);
    if |w.reg.inputs| > 0 { NextSame(w, a, 0); } else { NoInputs(w, a); }
    NextSame(w, a, i);
    var x := w.reg.inputs[i];
    assert InputTold(desktop, before, x);
    NextTells(w, a, i, VerdictOf(desktop, before, x.command), Stands(desktop, before, x.command, x.client));
    SameSighting(Next(w, a).past.batches, x, Next(w, a).reg.inputs[i]);
  }

  lemma NoInputs(w: World, a: Action)
    requires w.reg.inputs == [] && !a.QueueCommand?
    ensures Next(w, a).reg.inputs == []
  {
  }

  lemma OneTold(desktop: bool, actions: seq<Action>, input: Input)
    requires AllTold(desktop, actions) && input in At(desktop, actions).reg.inputs
    ensures InputTold(desktop, actions, input)
  {
    hide At; hide InputTold;
  }

  lemma QueueAllTold(desktop: bool, actions: seq<Action>, i: nat)
    requires actions != [] && AllTold(desktop, actions[..|actions| - 1]) && actions[|actions| - 1].QueueCommand?
    requires Inv(At(desktop, actions[..|actions| - 1]))
    requires i < |At(desktop, actions).reg.inputs|
    ensures InputTold(desktop, actions, At(desktop, actions).reg.inputs[i])
  {
    hide Inv; hide Told; hide Sighting; hide AllTold;
    var before, a := actions[..|actions| - 1], actions[|actions| - 1];
    var w := At(desktop, before);
    var y := Next(w, a).reg.inputs[i];
    if y in w.reg.inputs {
      OneTold(desktop, before, y);
    } else {
      NewCommand(desktop, before, a.id, a.client);
      QueuedInput(w, a, y);
    }
  }

  lemma QueuedInput(w: World, a: Action, y: Input)
    requires Inv(w) && a.QueueCommand? && y in Next(w, a).reg.inputs && y !in w.reg.inputs
    ensures Enabled(w, a) && y.command == a.id && y.client == a.client
    ensures Told(y, None, false, Sighting(Next(w, a).past.batches, y))
  {
  }

  lemma {:induction false} ApartThroughout(desktop: bool, actions: seq<Action>)
    ensures Apart(At(desktop, actions))
    decreases |actions|
  {
    if actions != [] {
      hide Next; hide Inv; hide Apart;
      Reachable(desktop, actions[..|actions| - 1]);
      ApartThroughout(desktop, actions[..|actions| - 1]);
      NextApart(At(desktop, actions[..|actions| - 1]), actions[|actions| - 1]);
    }
  }

  /** In every run each retained input has the receipt that the run gives it: observed exactly if the Mod accepted it
      and a batch after its submission shows it, before or after; otherwise submitted or rejected as the Mod
      answered until that is doubted, and unconfirmed in all other cases. It names the last event that shows it. */
  lemma {:induction false} ReceiptIs(desktop: bool, actions: seq<Action>)
    ensures AllTold(desktop, actions)
    decreases |actions|
  {
    if actions != [] {
      var before := actions[..|actions| - 1];
      Reachable(desktop, before);
      ApartThroughout(desktop, before);
      ReceiptIs(desktop, before);
      hide Inv; hide Apart; hide InputTold; hide At;
      forall i | 0 <= i < |At(desktop, actions).reg.inputs| ensures InputTold(desktop, actions, At(desktop, actions).reg.inputs[i]) {
        if actions[|actions| - 1].QueueCommand? { QueueAllTold(desktop, actions, i); } else { StepAllTold(desktop, actions, i); }
      }
    } else {
      assert At(desktop, actions) == Registered(desktop);
    }
  }

  /** An input is observed exactly if the Mod accepted it and a native event after its submission shows it. */
  lemma ObservedIff(desktop: bool, actions: seq<Action>, i: nat)
    requires i < |At(desktop, actions).reg.inputs|
    ensures var w := At(desktop, actions); var input := w.reg.inputs[i];
      input.receipt == Observed <==>
        VerdictOf(desktop, actions, input.command) == Some(true) && Evidence(input, w.past.batches)
  {
    ReceiptIs(desktop, actions);
    var w := At(desktop, actions);
    assert InputTold(desktop, actions, w.reg.inputs[i]);
    SightingIff(w.past.batches, w.reg.inputs[i]);
  }

  // ----- the turn of the pending command -----

  /** An accepted batch ends the turn of the command that was handed out. */
  ghost predicate EndsTurn(w: World, a: Action, id: string) {
    && a.PushBatch? && PushOutcome(w.reg, a.sequence, a.events) == Applied && w.reg.pending.Some?
    && var c := w.reg.pending.value;
      c.id == id && c.delivered && exists i :: 0 <= i < |a.events| && a.events[i].CompleteEvent? && a.events[i].turn == c.turn
  }

  ghost predicate TurnEnded(desktop: bool, actions: seq<Action>, id: string) {
    exists k :: 0 <= k < |actions| && EndsTurn(At(desktop, actions[..k]), actions[k], id)
  }

  lemma EndedThen(desktop: bool, actions: seq<Action>, a: Action, id: string)
    ensures TurnEnded(desktop, actions + [a], id) <==> TurnEnded(desktop, actions, id) || EndsTurn(At(desktop, actions), a, id)
  {
    hide At; hide EndsTurn;
    var all := actions + [a];
    assert all[..|actions|] == actions && all[|actions|] == a;
    assert forall k :: 0 <= k < |actions| ==> all[..k] == actions[..k] && all[k] == actions[k];
  }

  lemma EndsIssued(w: World, a: Action, id: string)
    requires Inv(w) && EndsTurn(w, a, id)
    ensures id in Next(w, a).past.issued
  {
    hide ApplyAll; hide Verified; hide MatchAll; hide PushOutcome; hide InputsOk; hide HandedOk;
  }

  lemma IssuedStays(w: World, a: Action)
    ensures w.past.issued <= Next(w, a).past.issued
  {
  }

  lemma {:induction false} EndedIssued(desktop: bool, actions: seq<Action>, id: string)
    requires TurnEnded(desktop, actions, id)
    ensures id in At(desktop, actions).past.issued
    decreases |actions|
  {
    var n := |actions| - 1;
    var before := actions[..n];
    assert before + [actions[n]] == actions;
    EndedThen(desktop, before, actions[n], id);
    hide TurnEnded; hide EndsTurn; hide Inv; hide Next;
    Reachable(desktop, before);
    IssuedStays(At(desktop, before), actions[n]);
    if TurnEnded(desktop, before, id) { EndedIssued(desktop, before, id); } else { EndsIssued(At(desktop, before), actions[n], id); }
  }

  lemma NextCompleted(w: World, a: Action)
    requires Next(w, a).reg.pending.Some? && !(a.QueueCommand? && w.reg.pending.None?)
    ensures w.reg.pending.Some?
    ensures var c, d := w.reg.pending.value, Next(w, a).reg.pending.value; d.id == c.id && d.completed == (c.completed || EndsTurn(w, a, c.id))
  {
    hide ApplyAll; hide Verified; hide MatchAll; hide PushOutcome; hide Doubt;
    if Enabled(w, a) && a.TimeOut? { DoubtSame(w.reg, w.reg.pending.value.client); DoubtPending(w.reg, w.reg.pending.value.client); }
  }

  lemma DoubtPending(r: Registration, client: string)
    ensures Doubt(r, client).pending == r.pending
  {
  }

  /** The pending command is marked completed exactly if a batch accepted since it was handed out ended its turn. */
  lemma {:induction false} CompletedIff(desktop: bool, actions: seq<Action>)
    ensures var p := At(desktop, actions).reg.pending; p.Some? ==> (p.value.completed <==> TurnEnded(desktop, actions, p.value.id))
    decreases |actions|
  {
    hide Next; hide TurnEnded; hide EndsTurn;
    if actions != [] && At(desktop, actions).reg.pending.Some? {
      var n := |actions| - 1;
      var before, a := actions[..n], actions[n];
      var w := At(desktop, before);
      assert before + [a] == actions;
      EndedThen(desktop, before, a, At(desktop, actions).reg.pending.value.id);
      CompletedIff(desktop, before);
      if a.QueueCommand? && w.reg.pending.None? {
        NewPending(w, a);
        if TurnEnded(desktop, before, a.id) { EndedIssued(desktop, before, a.id); }
      } else {
        NextCompleted(w, a);
      }
    }
  }

  lemma NewPending(w: World, a: Action)
    requires a.QueueCommand? && w.reg.pending.None? && Next(w, a).reg.pending.Some?
    ensures var c := Next(w, a).reg.pending.value; c.id == a.id && !c.completed && a.id !in w.past.issued
    ensures !EndsTurn(w, a, a.id)
  {
  }

  // ----- which inputs are retained -----

  /** The command of an input that this action submits. */
  ghost predicate Submits(w: World, a: Action) {
    && a.QueueCommand? && a.op == SendInput && Enabled(w, a) && Admits(w.reg, a.op, a.client, a.turn)
  }

  /** The commands of all inputs submitted so far, oldest first. */
  ghost function Submissions(desktop: bool, actions: seq<Action>): seq<string>
    decreases |actions|
  {
    if actions == [] then []
    else
      var before, a := actions[..|actions| - 1], actions[|actions| - 1];
      Submissions(desktop, before) + if Submits(At(desktop, before), a) then [a.id] else []
  }

  ghost predicate NewestOf(inputs: seq<Input>, all: seq<string>) {
    && |inputs| == Min(MAX_ROWS, |all|)
    && forall i :: 0 <= i < |inputs| ==> inputs[i].command == all[|all| - |inputs| + i]
  }

  lemma SubmitNewest(w: World, a: Action, all: seq<string>)
    requires NewestOf(w.reg.inputs, all) && a.QueueCommand?
    ensures NewestOf(Next(w, a).reg.inputs, all + if Submits(w, a) then [a.id] else [])
  {
    hide Admits;
  }

  /** In every run the retained inputs are exactly the newest ones submitted, up to the bound, in their order. */
  lemma {:induction false} RetainedAreNewest(desktop: bool, actions: seq<Action>)
    ensures NewestOf(At(desktop, actions).reg.inputs, Submissions(desktop, actions))
    decreases |actions|
  {
    if actions != [] {
      var before, a := actions[..|actions| - 1], actions[|actions| - 1];
      var w := At(desktop, before);
      assert !a.QueueCommand? ==> !Submits(w, a);
      hide Next; hide Submits;
      RetainedAreNewest(desktop, before);
      if a.QueueCommand? {
        SubmitNewest(w, a, Submissions(desktop, before));
      } else {
        if w.reg.inputs == [] { NoInputs(w, a); }
        forall i | 0 <= i < |w.reg.inputs| ensures |Next(w, a).reg.inputs| == |w.reg.inputs| && Same(w.reg.inputs[i], Next(w, a).reg.inputs[i]) {
          NextSame(w, a, i);
        }
        assert Submissions(desktop, before) + [] == Submissions(desktop, before);
      }
    }
  }
}
