/**
 The write into a missing map at intranet/server.go:247, exactly: which steps make the panic of the
 watcher certain, and that nothing but such a step does.
 */
module DispatchPanics {
  import opened Dispatch
  import opened DispatchRuns

  /** A registration waits in the channel whose worker has no table entry any more. */
  predicate AnyPanics(table: Tasks, chan: seq<Keeper>) {
    exists i | 0 <= i < |chan| :: Panics(table, chan[i])
  }

  predicate Doomed(s: State) {
    s.crashed || AnyPanics(s.table, s.chan)
  }

  predicate Registers(chan: seq<Keeper>, w: Worker) {
    exists i | 0 <= i < |chan| :: chan[i].worker == w && !chan[i].done
  }

  /** The two ways a step makes the panic certain. */
  predicate Dooms(s: State, step: Step)
    requires Enabled(s, step)
  {
    match step
    case Register(h) =>
      // the handler passed its connected check, and the entry was deleted before its send
      s.getters[h].worker !in s.table
    case Disconnect(w) =>
      // the select takes the disconnect, which deletes the entry, before a registration
      TasksOf(s.table, w) != {} && Registers(s.chan, w)
    case _ => false
  }

  /** The exact panic law, for every step of every run of the code as written. */
  lemma PanicLaw(s: State, step: Step)
    requires Inv(s) && Enabled(s, step)
    ensures Doomed(Apply(s, step)) <==> Doomed(s) || Dooms(s, step)
  {
    TrafficPanics(s, step);
  }

  lemma TrafficPanics(s: State, step: Step)
    requires Enabled(s, step) && ChanKnown(s.links.Keys, s.chan) && (step.Disconnect? ==> step.w in s.table)
    ensures Doomed(Apply(s, step)) <==> Doomed(s) || Dooms(s, step)
  {
    match step
    case Register(_) => SendPanics(s.table, s.chan, Sent(s, step));
    case Report(_) => SendPanics(s.table, s.chan, Sent(s, step));
    case WatchTask => TakePanics(s.table, s.chan);
    case Disconnect(w) => DeletePanics(s.table, s.chan, w);
    case Connect(w) => AddPanics(s.table, s.chan, w);
    case _ => NoTraffic(s, step);
  }

  lemma SendPanics(table: Tasks, chan: seq<Keeper>, k: Keeper)
    ensures AnyPanics(table, chan + [k]) <==> AnyPanics(table, chan) || Panics(table, k)
  {
    assert (chan + [k])[|chan|] == k;
    if AnyPanics(table, chan) {
      var i :| 0 <= i < |chan| && Panics(table, chan[i]);
      assert (chan + [k])[i] == chan[i];
    }
  }

  lemma TakePanics(table: Tasks, chan: seq<Keeper>)
    requires chan != []
    ensures AnyPanics(table, chan) <==> Panics(table, chan[0]) || AnyPanics(Handle(table, chan[0]), chan[1..])
  {
    if AnyPanics(table, chan) && !Panics(table, chan[0]) {
      var i :| 0 <= i < |chan| && Panics(table, chan[i]);
      assert chan[1..][i - 1] == chan[i];
    }
    if AnyPanics(Handle(table, chan[0]), chan[1..]) {
      var i :| 0 <= i < |chan[1..]| && Panics(Handle(table, chan[0]), chan[1..][i]);
      assert chan[i + 1] == chan[1..][i];
    }
  }

  lemma NoTraffic(s: State, step: Step)
    requires Enabled(s, step)
    requires !step.Register? && !step.Report? && !step.WatchTask? && !step.Disconnect? && !step.Connect?
    ensures Apply(s, step).table == s.table && Apply(s, step).chan == s.chan && Apply(s, step).crashed == s.crashed
  {
  }

  lemma AddPanics(table: Tasks, chan: seq<Keeper>, w: Worker)
    requires forall i | 0 <= i < |chan| :: chan[i].worker != w
    ensures AnyPanics(table[w := {}], chan) <==> AnyPanics(table, chan)
  {
  }

  lemma DeletePanics(table: Tasks, chan: seq<Keeper>, w: Worker)
    requires w in table
    ensures AnyPanics(table - {w}, chan) <==> AnyPanics(table, chan) || Registers(chan, w)
  {
  }

  predicate NeverDooms(s: State, tr: seq<Step>)
    requires Legal(s, tr)
    decreases |tr|
  {
    tr != [] ==> !Dooms(s, tr[0]) && NeverDooms(Apply(s, tr[0]), tr[1..])
  }

  lemma {:induction false} RunPanicLaw(s: State, tr: seq<Step>)
    requires Inv(s) && Legal(s, tr)
    ensures Doomed(After(s, tr)) <==> Doomed(s) || !NeverDooms(s, tr)
    decreases |tr|
  {
    if tr != [] {
      PanicLaw(s, tr[0]);
      StepInv(s, tr[0]);
      RunPanicLaw(Apply(s, tr[0]), tr[1..]);
    }
  }

  // ---------------------------------------------------------------- a doomed watcher panics

  /** The watcher on its own: it ends its loop and handles what is buffered. */
  predicate Draining(tr: seq<Step>) {
    forall i | 0 <= i < |tr| :: tr[i].Fail? || tr[i].WatchTask?
  }

  ghost predicate PanicsOnItsOwn(s: State) {
    exists tr :: Draining(tr) && Legal(s, tr) && After(s, tr).crashed
  }

  lemma OwnStep(s: State, step: Step)
    requires Enabled(s, step) && (step.Fail? || step.WatchTask?) && PanicsOnItsOwn(Apply(s, step))
    ensures PanicsOnItsOwn(s)
  {
    var tr :| Draining(tr) && Legal(Apply(s, step), tr) && After(Apply(s, step), tr).crashed;
    assert ([step] + tr)[1..] == tr;
    assert Draining([step] + tr) && Legal(s, [step] + tr) && After(s, [step] + tr).crashed;
  }

  lemma {:induction false} DoomedPanics(s: State)
    requires Inv(s) && Doomed(s)
    ensures PanicsOnItsOwn(s)
    decreases |s.chan|, |s.closing|
  {
    if s.crashed {
      assert Draining([]) && Legal(s, []) && After(s, []).crashed;
    } else {
      var step := WatchTask;
      if s.closing != {} {
        var t :| t in s.closing;
        step := Step.Fail(t);
      }
      PanicLaw(s, step);
      StepInv(s, step);
      DoomedPanics(Apply(s, step));
      OwnStep(s, step);
    }
  }

  lemma {:induction false} DrainingDoomsNothing(s: State, tr: seq<Step>)
    requires Legal(s, tr) && Draining(tr)
    ensures NeverDooms(s, tr)
    decreases |tr|
  {
    if tr != [] {
      DrainingDoomsNothing(Apply(s, tr[0]), tr[1..]);
    }
  }

  /** Doomed is exactly that: whatever else happens or not, handling what is buffered now panics. */
  lemma DoomedIff(s: State)
    requires Inv(s)
    ensures Doomed(s) <==> PanicsOnItsOwn(s)
  {
    if Doomed(s) {
      DoomedPanics(s);
    }
    if PanicsOnItsOwn(s) {
      var tr :| Draining(tr) && Legal(s, tr) && After(s, tr).crashed;
      RunPanicLaw(s, tr);
      DrainingDoomsNothing(s, tr);
    }
  }

  /** From the empty server: a run ends with a watcher that is bound to panic iff a step of it doomed it. */
  lemma PanicIff(start: nat, tr: seq<Step>)
    requires Legal(Init(start), tr)
    ensures PanicsOnItsOwn(After(Init(start), tr)) <==> !NeverDooms(Init(start), tr)
    ensures After(Init(start), tr).crashed ==> !NeverDooms(Init(start), tr)
  {
    assert Inv(Init(start));
    RunInv(Init(start), tr);
    DoomedIff(After(Init(start), tr));
    RunPanicLaw(Init(start), tr);
  }

  /**
   The late registration: with a get handler of `w` past its connected check and the disconnect handled
   before its send, the panic becomes certain iff the table entry of `w` was not empty.
   */
  lemma LateRegistrationPanicsIff(s: State, w: Worker, h: Handler)
    requires Inv(s) && Enabled(s, Disconnect(w)) && !Doomed(s)
    requires h in s.getters && s.getters[h].worker == w && s.getters[h].pc == Checked
    ensures Enabled(Apply(s, Disconnect(w)), Register(h))
    ensures PanicsOnItsOwn(Apply(Apply(s, Disconnect(w)), Register(h))) <==> TasksOf(s.table, w) != {}
  {
    var s1 := Apply(s, Disconnect(w));
    PanicLaw(s, Disconnect(w));
    StepInv(s, Disconnect(w));
    PanicLaw(s1, Register(h));
    StepInv(s1, Register(h));
    DoomedIff(Apply(s1, Register(h)));
  }
}
