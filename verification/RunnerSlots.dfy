/** Slot conservation: a process's tokens are exactly the goroutines that have yet to free theirs. */
module RunnerSlots {
  import opened Common
  import opened Workflows
  import opened RunStates
  import opened RunProtocol
  import opened RunInvariant
  import opened RunLoops
  import opened RunEffects
  import opened Runners
  import opened RunnerSafety

  /** The step goroutines of process p's runs that hold a slot. */
  ghost function Holders(w: World, p: nat): set<(nat, string)> {
    set i, s | i in w.runs && s in w.runs[i].gos && HoldsSlot(w, p, i, s) :: (i, s)
  }

  ghost predicate HoldsSlot(w: World, p: nat, i: nat, s: string) {
    i in w.runs && i in w.home && w.home[i] == p && Holding(w.runs[i], s)
  }

  /** The tokens of every process are its slot holders, and no more than the limit. */
  ghost predicate Slotted(w: World) {
    w.limit > 0 ==> forall p: nat :: SlotsOf(w, p) == |Holders(w, p)| && SlotsOf(w, p) <= w.limit
  }

  /** A move after which the same goroutines hold the same slots. */
  lemma SameSlots(w: World, w': World)
    requires Slotted(w) && w'.limit == w.limit
    requires forall p: nat :: SlotsOf(w', p) == SlotsOf(w, p)
    requires forall p: nat, i: nat, s :: HoldsSlot(w', p, i, s) <==> HoldsSlot(w, p, i, s)
    ensures Slotted(w')
  {
    forall p: nat
      ensures Holders(w', p) == Holders(w, p)
    {
      SameHolders(w, w', p);
    }
  }

  lemma SameHolders(w: World, w': World, p: nat)
    requires forall i: nat, s :: HoldsSlot(w', p, i, s) <==> HoldsSlot(w, p, i, s)
    ensures Holders(w', p) == Holders(w, p)
  {
    forall i: nat, s
      ensures (i, s) in Holders(w', p) <==> (i, s) in Holders(w, p)
    {
      assert HoldsSlot(w', p, i, s) <==> HoldsSlot(w, p, i, s);
    }
  }

  /** A goroutine that takes a token, or gives its own back. */
  lemma OneSlot(w: World, w': World, q: nat, i: nat, s: string, takes: bool)
    requires Slotted(w) && w'.limit == w.limit && w.limit > 0
    requires if takes then SlotsOf(w, q) < w.limit && SlotsOf(w', q) == SlotsOf(w, q) + 1
             else SlotsOf(w', q) == (if SlotsOf(w, q) == 0 then 0 else SlotsOf(w, q) - 1)
    requires HoldsSlot(w, q, i, s) == !takes && HoldsSlot(w', q, i, s) == takes
    requires forall p: nat :: p != q ==> SlotsOf(w', p) == SlotsOf(w, p)
    requires forall p: nat, j: nat, t :: (p, j, t) != (q, i, s) ==> (HoldsSlot(w', p, j, t) <==> HoldsSlot(w, p, j, t))
    ensures Slotted(w')
  {
    forall p: nat
      ensures SlotsOf(w', p) == |Holders(w', p)| && SlotsOf(w', p) <= w'.limit
    {
      if p != q {
        SameHolders(w, w', p);
      } else {
        assert (i, s) in (if takes then Holders(w', q) else Holders(w, q));
        HoldersSplit(w, w', q, i, s, takes);
      }
    }
  }

  lemma HoldersSplit(w: World, w': World, q: nat, i: nat, s: string, takes: bool)
    requires HoldsSlot(w, q, i, s) == !takes && HoldsSlot(w', q, i, s) == takes
    requires forall p: nat, j: nat, t :: (p, j, t) != (q, i, s) ==> (HoldsSlot(w', p, j, t) <==> HoldsSlot(w, p, j, t))
    ensures Holders(w', q) == if takes then Holders(w, q) + {(i, s)} else Holders(w, q) - {(i, s)}
  {
    forall j: nat, t
      ensures (j, t) in Holders(w', q) <==> ((j, t) in Holders(w, q) && (takes || (j, t) != (i, s))) || (takes && (j, t) == (i, s))
    {
      assert (q, j, t) != (q, i, s) ==> (HoldsSlot(w', q, j, t) <==> HoldsSlot(w, q, j, t));
    }
  }

  lemma StepSlots(w: World, i: nat, s: string, w': World)
    requires Slotted(w) && StepMove(w, i, s, w')
    ensures Slotted(w')
  {
    hide StepMoves, Slotted, SlotsOf;
    var b :| StepMoves(w.limit > 0, LocalOf(w, i), s, b) && w' == AfterStep(w, i, s, b);
    StepEffect(w.limit > 0, LocalOf(w, i), s, b);
    var p := w.home[i];
    assert forall t :: t != s ==> (Holding(b.r, t) <==> Holding(w.runs[i], t));
    if w.runs[i].gos[s].Freeing? && w.limit > 0 {
      FreedSlots(w, w', p);
      OneSlot(w, w', p, i, s, false);
    } else {
      MergedSlots(w, w');
      assert w.limit > 0 ==> (Holding(b.r, s) <==> Holding(w.runs[i], s));
      if w.limit > 0 {
        SameSlots(w, w');
      } else {
        Unlimited(w');
      }
    }
  }

  lemma Unlimited(w: World)
    requires w.limit == 0
    ensures Slotted(w)
  {
  }

  lemma FreedSlots(w: World, w': World, p: nat)
    requires w'.slots == w.slots[p := if SlotsOf(w, p) - 1 < 0 then 0 else SlotsOf(w, p) - 1]
    ensures SlotsOf(w', p) == (if SlotsOf(w, p) == 0 then 0 else SlotsOf(w, p) - 1)
    ensures forall q: nat :: q != p ==> SlotsOf(w', q) == SlotsOf(w, q)
  {
  }

  lemma TakenSlots(w: World, w': World, p: nat)
    requires w'.slots == w.slots[p := SlotsOf(w, p) + 1]
    ensures SlotsOf(w', p) == SlotsOf(w, p) + 1
    ensures forall q: nat :: q != p ==> SlotsOf(w', q) == SlotsOf(w, q)
  {
  }

  lemma MergedSlots(w: World, w': World)
    requires w'.slots == w.slots
    ensures forall q: nat :: SlotsOf(w', q) == SlotsOf(w, q)
  {
  }

  lemma LaunchSlots(w: World, i: nat, w': World)
    requires Slotted(w) && Safe(w) && LaunchMove(w, i, w')
    ensures Slotted(w')
  {
    hide Slotted, SlotsOf, Holds, LogsOK;
    if Full(w, w.home[i]) {
      MergedSlots(w, w');
      SameSlots(w, w');
    } else if w.limit > 0 {
      var (b, s) := (Launches(LocalOf(w, i)), w.runs[i].loop.rest[0].id);
      LaunchIsNew(LocalOf(w, i));
      TakenSlots(w, w', w.home[i]);
      OneSlot(w, w', w.home[i], i, s, true);
    } else {
      Unlimited(w');
    }
  }

  lemma LaunchIsNew(a: Local)
    requires Holds(a) && a.r.loop.Launching? && a.r.loop.rest != []
    ensures a.r.loop.rest[0].id !in a.r.gos
  {
    LaunchedStep(a);
    LoopOf(a);
  }

  /** The goroutine a run loses to a crash, or the run dropped, frees its process's tokens with it. */
  lemma CrashSlots(w: World, p: nat, w': World)
    requires Slotted(w) && CrashMove(w, p, w')
    ensures Slotted(w')
  {
    forall q: nat
      ensures q != p ==> Holders(w', q) == Holders(w, q)
      ensures Holders(w', p) == {}
    {
      if q != p {
        SameHolders(w, w', q);
      }
    }
  }

  lemma DropSlots(w: World, i: nat, w': World)
    requires Slotted(w) && Safe(w) && DropMove(w, i, w')
    ensures Slotted(w')
  {
    hide Slotted, Holds, LogsOK, SlotsOf;
    DroppedHasNone(LocalOf(w, i), w'.disk[w.runs[i].id]);
    MergedSlots(w, w');
    SameSlots(w, w');
  }

  lemma DroppedHasNone(a: Local, log: seq<Event>)
    requires Holds(a) && Drops(a, log)
    ensures a.r.gos == map[]
  {
    LoopOf(a);
    hide Holds, Logs;
    assert a.r.loop.Fresh? || a.r.loop.Settled?;
  }

  lemma OtherSlots(w: World, w': World)
    requires Slotted(w) && Safe(w) && Next(w, w')
    requires !exists i, s :: StepMove(w, i, s, w')
    ensures Slotted(w')
  {
    hide Safe, Slotted, StepMove, LoopMove, LaunchMove, LockMove, SignalMove, NotifyMove, StartMove, ResumeMove,
         DropMove, ContextMove, OfflineMove, CrashMove, ExchangeMove;
    if i :| LoopMove(w, i, w') { LoopSlots(w, i, w'); }
    else if i :| LaunchMove(w, i, w') { LaunchSlots(w, i, w'); }
    else if i, s :| LockMove(w, i, s, w') { LockSlots(w, i, s, w'); }
    else if i, s, k :| SignalMove(w, i, s, k, w') { SignalSlots(w, i, s, k, w'); }
    else if i :| NotifyMove(w, i, w') { NotifySlots(w, i, w'); }
    else if i, p, id, wf :| StartMove(w, i, p, id, wf, w') { StartSlots(w, i, p, id, wf, w'); }
    else if i, p, id, k :| ResumeMove(w, i, p, id, k, w') { ResumeSlots(w, i, p, id, k, w'); }
    else if i :| DropMove(w, i, w') { DropSlots(w, i, w'); }
    else if i, cause :| ContextMove(w, i, cause, w') { ContextSlots(w, i, cause, w'); }
    else if id, k :| OfflineMove(w, id, k, w') { OfflineSlots(w, id, k, w'); }
    else if p :| CrashMove(w, p, w') { CrashSlots(w, p, w'); }
    else {
      var x, res, err, record :| ExchangeMove(w, x, res, err, record, w');
      ExchangeSlots(w, x, res, err, record, w');
    }
  }

  lemma NextSlots(w: World, w': World)
    requires Slotted(w) && Safe(w) && Next(w, w')
    ensures Slotted(w')
  {
    hide Safe, Slotted, StepMove, Next;
    if i, s :| StepMove(w, i, s, w') {
      StepSlots(w, i, s, w');
    } else {
      OtherSlots(w, w');
    }
  }

  lemma LoopSlots(w: World, i: nat, w': World)
    requires Slotted(w) && LoopMove(w, i, w')
    ensures Slotted(w')
  {
    hide LoopMoves, Slotted, SlotsOf;
    var b :| LoopMoves(LocalOf(w, i), b) && w' == Merge(w, i, b);
    LoopEffect(LocalOf(w, i), b);
    MergedSlots(w, w');
    SameSlots(w, w');
  }

  lemma LockSlots(w: World, i: nat, s: string, w': World)
    requires Slotted(w) && LockMove(w, i, s, w')
    ensures Slotted(w')
  {
    hide Slotted, SlotsOf, Registered;
    MergedSlots(w, w');
    SameSlots(w, w');
  }

  lemma SignalSlots(w: World, i: nat, s: string, k: nat, w': World)
    requires Slotted(w) && SignalMove(w, i, s, k, w')
    ensures Slotted(w')
  {
    hide Slotted, SlotsOf;
    MergedSlots(w, w');
    SameSlots(w, w');
  }

  lemma NotifySlots(w: World, i: nat, w': World)
    requires Slotted(w) && NotifyMove(w, i, w')
    ensures Slotted(w')
  {
    hide Slotted, SlotsOf;
    MergedSlots(w, w');
    SameSlots(w, w');
  }

  lemma StartSlots(w: World, i: nat, p: nat, id: string, wf: Workflow, w': World)
    requires Slotted(w) && StartMove(w, i, p, id, wf, w')
    ensures Slotted(w')
  {
    hide Slotted, SlotsOf, Valid;
    MergedSlots(w, w');
    SameSlots(w, w');
  }

  lemma ResumeSlots(w: World, i: nat, p: nat, id: string, k: nat, w': World)
    requires Slotted(w) && ResumeMove(w, i, p, id, k, w')
    ensures Slotted(w')
  {
    hide Slotted, SlotsOf, At, SomeStep;
    MergedSlots(w, w');
    SameSlots(w, w');
  }

  lemma ContextSlots(w: World, i: nat, cause: Cause, w': World)
    requires Slotted(w) && ContextMove(w, i, cause, w')
    ensures Slotted(w')
  {
    hide Slotted, SlotsOf;
    MergedSlots(w, w');
    SameSlots(w, w');
  }

  lemma OfflineSlots(w: World, id: string, k: nat, w': World)
    requires Slotted(w) && OfflineMove(w, id, k, w')
    ensures Slotted(w')
  {
    hide Slotted, SlotsOf, At;
    MergedSlots(w, w');
    SameSlots(w, w');
  }

  lemma ExchangeSlots(w: World, x: ExchangeID, res: HarnessResult, err: Option<StepError>, record: Option<Record>, w': World)
    requires Slotted(w) && ExchangeMove(w, x, res, err, record, w')
    ensures Slotted(w')
  {
    hide Slotted, SlotsOf;
    MergedSlots(w, w');
    SameSlots(w, w');
  }

  /** Over every history, tokens and slot holders agree, within the limit. */
  lemma {:induction false} AlwaysSlotted(ws: seq<World>)
    requires History(ws)
    ensures Slotted(Last(ws))
  {
    hide Safe, Next, Slotted;
    if |ws| == 1 {
      InitSlotted(ws[0]);
    } else {
      var front := ws[..|ws| - 1];
      assert forall n :: 0 <= n < |front| ==> front[n] == ws[n];
      AlwaysSlotted(front);
      AlwaysSafe(front);
      assert Next(ws[|ws| - 2], ws[|ws| - 2 + 1]);
      NextSlots(Last(front), Last(ws));
    }
  }

  lemma InitSlotted(w: World)
    requires Init(w)
    ensures Slotted(w)
  {
    assert forall p: nat :: Holders(w, p) == {};
  }
}
