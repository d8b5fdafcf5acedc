/** The worker slot and the block disk's hand-over, as atomic steps interleaved by any number of threads. */
module WorkerSlot {
  import opened Machine

  datatype Slot = Idle | Starting | Running(handle: nat)

  // ---- the slot's own operations ----

  function Reserved(slot: Slot): Slot {
    if slot == Idle then Starting else slot
  }

  /** Dropping a reservation that was not committed. */
  function Released(slot: Slot): Slot {
    if slot == Starting then Idle else slot
  }

  /** One round of `take_worker`: a running worker leaves an idle slot, a starting one is put back. */
  function AfterTake(slot: Slot): Slot {
    if slot.Running? then Idle else slot
  }

  // ---- the protocol ----

  /** Where a thread stands in `start_worker` (first five) or `stop_worker`; numbers name start attempts. */
  datatype Pc =
    | Outside
    | HasReservation(a: nat)     // reserved, disk not taken yet
    | HasDisk(a: nat)            // disk in the cell shared with the worker to be
    | Cleared(a: nat)            // stop flag cleared, worker not spawned yet
    | Failing(a: nat)            // returning an error, reservation about to drop
    | HasWorker(a: nat)          // spawned, not committed
    | Taking                     // stop requested, a round of `take_worker` ahead
    | Joining(h: nat)
    | Restoring(h: nat)          // joined, disk in hand

  datatype Worker = Fresh | Busy | Finished | Joined

  /** Where a disk can be. */
  datatype Place = Home | Cell(a: nat) | InWorker(a: nat) | Outcome(a: nat) | Hand(t: nat)

  /** `committed`, `taken`, `cleared` and `asked` are history. */
  datatype State = State(
    slot: Slot, pc: map<nat, Pc>, workers: map<nat, Worker>, disks: set<Place>, stop: bool,
    nextId: nat, committed: seq<nat>, taken: seq<nat>,
    cleared: Option<nat>,        // the start that cleared the stop flag last
    asked: set<nat>)             // starts after whose clearing a stop was requested

  function Init(threads: set<nat>): State {
    State(Idle, map t | t in threads :: Outside, map[], {Home}, false, 0, [], [], None, {})
  }

  datatype Event =
    | Reserve(t: nat)
    | TakeDisk(t: nat)
    | ClearStop(t: nat)
    | Abort(t: nat)
    | Spawn(t: nat)
    | Commit(t: nat)
    | DropReservation(t: nat)
    | RequestStop(t: nat)
    | Take(t: nat)
    | Join(t: nat)
    | Restore(t: nat)
    | WorkerStart(a: nat)
    | WorkerEnd(a: nat)

  function Move(disks: set<Place>, from: Place, to: Place): set<Place> {
    disks - {from} + {to}
  }

  function At(s: State, t: nat): Pc {
    if t in s.pc then s.pc[t] else Outside
  }

  function Goto(s: State, t: nat, pc: Pc): State {
    s.(pc := s.pc[t := pc])
  }

  /** One atomic step; an event that is not enabled changes nothing. */
  function Step(s: State, e: Event): State {
    match e
    case Reserve(t) =>
      if At(s, t) != Outside || s.slot != Idle then s
      else Goto(s, t, HasReservation(s.nextId)).(slot := Reserved(s.slot), nextId := s.nextId + 1)
    case TakeDisk(t) =>
      if !At(s, t).HasReservation? then s
      else if Home in s.disks then
        Goto(s, t, HasDisk(At(s, t).a)).(disks := Move(s.disks, Home, Cell(At(s, t).a)))
      else Goto(s, t, Failing(At(s, t).a))
    case ClearStop(t) =>
      if !At(s, t).HasDisk? then s
      else Goto(s, t, Cleared(At(s, t).a)).(stop := false, cleared := Some(At(s, t).a))
    case Abort(t) =>
      if !At(s, t).HasDisk? && !At(s, t).Cleared? then s
      else Goto(s, t, Failing(At(s, t).a)).(disks := Move(s.disks, Cell(At(s, t).a), Home))
    case Spawn(t) =>
      if !At(s, t).Cleared? then s
      else Goto(s, t, HasWorker(At(s, t).a)).(workers := s.workers[At(s, t).a := Fresh])
    case Commit(t) =>
      if !At(s, t).HasWorker? then s
      else Goto(s, t, Outside).(slot := Running(At(s, t).a), committed := s.committed + [At(s, t).a])
    case DropReservation(t) =>
      if !At(s, t).Failing? then s else Goto(s, t, Outside).(slot := Released(s.slot))
    case RequestStop(t) =>
      if At(s, t) != Outside then s
      else
        Goto(s, t, Taking).(stop := true,
                            asked := s.asked + (if s.cleared.Some? then {s.cleared.value} else {}))
    case Take(t) =>
      if At(s, t) != Taking then s
      else
        var s1 := s.(slot := AfterTake(s.slot));
        if s.slot.Running? then Goto(s1, t, Joining(s.slot.handle)).(taken := s.taken + [s.slot.handle])
        else if s.slot == Idle then Goto(s1, t, Outside)
        else Goto(s1, t, Taking)
    case Join(t) =>
      if !At(s, t).Joining? then s
      else
        var h := At(s, t).h;
        if h !in s.workers || s.workers[h] != Finished then s
        else Goto(s, t, Restoring(h)).(workers := s.workers[h := Joined], disks := Move(s.disks, Outcome(h), Hand(t)))
    case Restore(t) =>
      if !At(s, t).Restoring? then s
      else Goto(s, t, Outside).(disks := Move(s.disks, Hand(t), Home))
    case WorkerStart(a) =>
      if a !in s.workers || s.workers[a] != Fresh then s
      else s.(workers := s.workers[a := Busy], disks := Move(s.disks, Cell(a), InWorker(a)))
    case WorkerEnd(a) =>
      if a !in s.workers || s.workers[a] != Busy then s
      else s.(workers := s.workers[a := Finished], disks := Move(s.disks, InWorker(a), Outcome(a)))
  }

  function Run(s: State, es: seq<Event>): State {
    if es == [] then s else Step(Run(s, es[..|es| - 1]), es[|es| - 1])
  }

  // ---- the invariant ----

  /** The thread holds a reservation that was not committed. */
  predicate Active(pc: Pc) {
    pc.HasReservation? || pc.HasDisk? || pc.Cleared? || pc.Failing? || pc.HasWorker?
  }

  /** The slot is `Starting` exactly when one uncommitted reservation exists. */
  ghost predicate SlotInv(s: State) {
    && (forall t, u :: Active(At(s, t)) && Active(At(s, u)) ==> t == u)
    && (s.slot == Starting <==> exists t :: Active(At(s, t)))
    && (forall t :: Active(At(s, t)) ==> At(s, t).a < s.nextId && At(s, t).a !in s.committed)
    && (forall t :: Active(At(s, t)) && !At(s, t).HasWorker? ==> At(s, t).a !in s.workers)
    && (forall a :: a in s.workers ==> a < s.nextId)
  }

  /** Handles are committed once each and leave the slot in that order. */
  ghost predicate HandleInv(s: State) {
    && s.committed == s.taken + (if s.slot.Running? then [s.slot.handle] else [])
    && (forall i, j :: 0 <= i < j < |s.committed| ==> s.committed[i] != s.committed[j])
    && (forall i :: 0 <= i < |s.committed| ==> s.committed[i] < s.nextId)
  }

  /** There is one disk, and whoever should have it does. */
  ghost predicate DiskInv(s: State) {
    && s.disks != {}
    && (forall p, q :: p in s.disks && q in s.disks ==> p == q)
    && (forall t :: At(s, t).HasDisk? || At(s, t).Cleared? ==> Cell(At(s, t).a) in s.disks)
    && (forall t :: At(s, t).Restoring? ==> Hand(t) in s.disks)
    && (forall a :: a in s.workers && s.workers[a] != Joined ==> WorkerPlace(a, s.workers[a]) in s.disks)
  }

  /** The disk is never stranded: wherever it is, someone is about to move it on. */
  ghost predicate OwnerInv(s: State) {
    && (forall a :: Cell(a) in s.disks ==>
          (exists t :: At(s, t) == HasDisk(a) || At(s, t) == Cleared(a)) || (a in s.workers && s.workers[a] == Fresh))
    && (forall a :: InWorker(a) in s.disks ==> a in s.workers && s.workers[a] == Busy)
    && (forall a :: Outcome(a) in s.disks ==> a in s.workers && s.workers[a] == Finished)
    && (forall t :: Hand(t) in s.disks ==> At(s, t).Restoring?)
  }

  /** No worker is orphaned: until it is joined its handle is with the start, in the slot or with who joins it. */
  ghost predicate WorkerInv(s: State) {
    forall a :: a in s.workers && s.workers[a] != Joined ==>
      s.slot == Running(a) || exists t :: At(s, t) == HasWorker(a) || At(s, t) == Joining(a)
  }

  /** Where the disk of a worker that was not joined yet is. */
  function WorkerPlace(a: nat, w: Worker): Place {
    if w == Fresh then Cell(a) else if w == Busy then InWorker(a) else Outcome(a)
  }

  /**
   The start past `clear_stop`, its worker included, is the last that cleared the flag, and the flag says if it was
   asked.
   */
  ghost predicate StopInv(s: State) {
    && (s.cleared.Some? ==> s.cleared.value < s.nextId && (s.stop <==> s.cleared.value in s.asked))
    && (forall a :: a in s.asked ==> a < s.nextId)
    && (forall t :: At(s, t).Cleared? || At(s, t).HasWorker? ==> s.cleared == Some(At(s, t).a))
    && (forall a :: a in s.workers && s.workers[a] != Joined ==> s.cleared == Some(a))
    && (forall t :: At(s, t).HasReservation? || At(s, t).HasDisk? ==>
          At(s, t).a !in s.asked && s.cleared != Some(At(s, t).a))
  }

  ghost predicate CoreInv(s: State) {
    SlotInv(s) && HandleInv(s) && DiskInv(s) && StopInv(s)
  }

  ghost predicate Inv(s: State) {
    CoreInv(s) && OwnerInv(s) && WorkerInv(s)
  }

  lemma InitInv(threads: set<nat>)
    ensures Inv(Init(threads))
  {
    assert Init(threads).disks == {Home};
  }

  /** A step of one thread keeps the slot invariant if it keeps that thread's part of it. */
  lemma SlotFrame(s: State, s': State, t: nat)
    requires SlotInv(s) && (forall u :: u != t ==> At(s', u) == At(s, u))
    requires s.nextId <= s'.nextId
    requires forall a :: a in s'.workers ==> a < s'.nextId
    requires forall a :: a in s'.workers && a !in s.workers ==> At(s, t) == Cleared(a) && At(s', t) == HasWorker(a)
    requires forall a :: a in s'.committed && a !in s.committed ==> At(s, t) == HasWorker(a)
    requires Active(At(s', t)) ==> At(s', t).a < s'.nextId && At(s', t).a !in s'.committed
    requires Active(At(s', t)) && !At(s', t).HasWorker? ==> At(s', t).a !in s'.workers
    requires if Active(At(s, t)) == Active(At(s', t)) then s'.slot == Starting <==> s.slot == Starting
             else (Active(At(s', t)) ==> s.slot != Starting) && (s'.slot == Starting <==> Active(At(s', t)))
    ensures SlotInv(s')
  {
    if s'.slot == Starting && !Active(At(s', t)) {
      var u :| Active(At(s, u));
      assert Active(At(s', u));
    }
  }

  lemma StepHandles(s: State, e: Event)
    requires CoreInv(s)
    ensures HandleInv(Step(s, e))
  {
  }

  /** Likewise for the disk. */
  lemma DiskFrame(s: State, s': State, t: nat)
    requires DiskInv(s) && (forall u :: u != t ==> At(s', u) == At(s, u))
    requires s'.disks == s.disks && s'.workers == s.workers
    requires At(s', t).Restoring? ==> At(s', t) == At(s, t)
    requires At(s', t).HasDisk? || At(s', t).Cleared? ==>
               (At(s, t).HasDisk? || At(s, t).Cleared?) && At(s', t).a == At(s, t).a
    ensures DiskInv(s')
  {
  }

  lemma ReserveKeeps(s: State, t: nat)
    requires CoreInv(s)
    ensures var s' := Step(s, Reserve(t)); SlotInv(s') && DiskInv(s')
  {
    var s' := Step(s, Reserve(t));
    if s' != s {
      assert forall u :: u != t ==> At(s', u) == At(s, u);
      SlotFrame(s, s', t);
      DiskFrame(s, s', t);
    }
  }

  lemma TakeDiskKeeps(s: State, t: nat)
    requires CoreInv(s)
    ensures var s' := Step(s, TakeDisk(t)); SlotInv(s') && DiskInv(s')
  {
    var s' := Step(s, TakeDisk(t));
    if s' != s {
      assert forall u :: u != t ==> At(s', u) == At(s, u);
      SlotFrame(s, s', t);
      if Home in s.disks {
        DiskToCell(s, s', t);
      } else {
        DiskFrame(s, s', t);
      }
    }
  }

  lemma DiskToCell(s: State, s': State, t: nat)
    requires DiskInv(s) && Home in s.disks && (forall u :: u != t ==> At(s', u) == At(s, u))
    requires At(s', t).HasDisk? && s'.disks == Move(s.disks, Home, Cell(At(s', t).a)) && s'.workers == s.workers
    ensures DiskInv(s')
  {
    assert s.disks == {Home};
    assert forall a :: a in s.workers && s.workers[a] != Joined ==> WorkerPlace(a, s.workers[a]) != Home;
  }

  lemma ClearStopKeeps(s: State, t: nat)
    requires CoreInv(s)
    ensures var s' := Step(s, ClearStop(t)); SlotInv(s') && DiskInv(s')
  {
    var s' := Step(s, ClearStop(t));
    if s' != s {
      assert forall u :: u != t ==> At(s', u) == At(s, u);
      SlotFrame(s, s', t);
      DiskFrame(s, s', t);
    }
  }

  lemma RequestStopKeeps(s: State, t: nat)
    requires CoreInv(s)
    ensures var s' := Step(s, RequestStop(t)); SlotInv(s') && DiskInv(s')
  {
    var s' := Step(s, RequestStop(t));
    if s' != s {
      assert forall u :: u != t ==> At(s', u) == At(s, u);
      SlotFrame(s, s', t);
      DiskFrame(s, s', t);
    }
  }

  lemma AbortKeeps(s: State, t: nat)
    requires CoreInv(s)
    ensures var s' := Step(s, Abort(t)); SlotInv(s') && DiskInv(s')
  {
    var s' := Step(s, Abort(t));
    if s' != s {
      assert forall u :: u != t ==> At(s', u) == At(s, u);
      SlotFrame(s, s', t);
    }
  }

  lemma SpawnKeeps(s: State, t: nat)
    requires CoreInv(s)
    ensures var s' := Step(s, Spawn(t)); SlotInv(s') && DiskInv(s')
  {
    var s' := Step(s, Spawn(t));
    if s' != s {
      assert forall u :: u != t ==> At(s', u) == At(s, u);
      SlotFrame(s, s', t);
    }
  }

  lemma CommitKeeps(s: State, t: nat)
    requires CoreInv(s)
    ensures var s' := Step(s, Commit(t)); SlotInv(s') && DiskInv(s')
  {
    var s' := Step(s, Commit(t));
    if s' != s {
      assert forall u :: u != t ==> At(s', u) == At(s, u);
      SlotFrame(s, s', t);
      DiskFrame(s, s', t);
    }
  }

  lemma DropReservationKeeps(s: State, t: nat)
    requires CoreInv(s)
    ensures var s' := Step(s, DropReservation(t)); SlotInv(s') && DiskInv(s')
  {
    var s' := Step(s, DropReservation(t));
    if s' != s {
      assert forall u :: u != t ==> At(s', u) == At(s, u);
      SlotFrame(s, s', t);
      DiskFrame(s, s', t);
    }
  }

  lemma TakeKeeps(s: State, t: nat)
    requires CoreInv(s)
    ensures var s' := Step(s, Take(t)); SlotInv(s') && DiskInv(s')
  {
    var s' := Step(s, Take(t));
    if s' != s {
      assert At(s, t) == Taking && !Active(At(s', t));
      TakeSlot(s, s', t);
      DiskFrame(s, s', t);
    }
  }

  lemma TakeSlot(s: State, s': State, t: nat)
    requires SlotInv(s) && At(s, t) == Taking && !Active(At(s', t)) && (forall u :: u != t ==> At(s', u) == At(s, u))
    requires s'.nextId == s.nextId && s'.workers == s.workers && s'.committed == s.committed
    requires s'.slot == AfterTake(s.slot)
    ensures SlotInv(s')
  {
    SlotFrame(s, s', t);
  }

  lemma JoinKeeps(s: State, t: nat)
    requires CoreInv(s)
    ensures var s' := Step(s, Join(t)); SlotInv(s') && DiskInv(s')
  {
    var s' := Step(s, Join(t));
    if s' != s {
      assert forall u :: u != t ==> At(s', u) == At(s, u);
      SlotFrame(s, s', t);
    }
  }

  lemma RestoreKeeps(s: State, t: nat)
    requires CoreInv(s)
    ensures var s' := Step(s, Restore(t)); SlotInv(s') && DiskInv(s')
  {
    var s' := Step(s, Restore(t));
    if s' != s {
      assert forall u :: u != t ==> At(s', u) == At(s, u);
      SlotFrame(s, s', t);
    }
  }

  lemma WorkerKeeps(s: State, e: Event)
    requires CoreInv(s) && (e.WorkerStart? || e.WorkerEnd?)
    ensures SlotInv(Step(s, e)) && DiskInv(Step(s, e))
  {
    var s' := Step(s, e);
    assert forall u :: At(s', u) == At(s, u);
    SlotFrame(s, s', 0);
    WorkerDisks(s, e);
  }

  lemma WorkerDisks(s: State, e: Event)
    requires CoreInv(s) && (e.WorkerStart? || e.WorkerEnd?)
    ensures DiskInv(Step(s, e))
  {
    var s' := Step(s, e);
    assert forall u :: At(s', u) == At(s, u);
    if s' != s {
      assert WorkerPlace(e.a, s.workers[e.a]) in s.disks;
      assert s'.disks == {WorkerPlace(e.a, s'.workers[e.a])};
    }
  }

  /** A step of thread `t` that neither clears the flag nor requests a stop. */
  lemma StopFrame(s: State, s': State, t: nat)
    requires StopInv(s) && (forall u :: u != t ==> At(s', u) == At(s, u))
    requires s'.stop == s.stop && s'.cleared == s.cleared && s'.asked == s.asked && s.nextId <= s'.nextId
    requires At(s', t).Cleared? ==> At(s', t) == At(s, t)
    requires At(s', t).HasWorker? ==> At(s', t) == At(s, t) || At(s, t) == Cleared(At(s', t).a)
    requires At(s', t).HasReservation? ==> At(s', t) == At(s, t) || At(s', t).a == s.nextId
    requires At(s', t).HasDisk? ==> At(s', t) == At(s, t) || At(s, t) == HasReservation(At(s', t).a)
    requires forall a :: a in s'.workers && s'.workers[a] != Joined ==>
               (a in s.workers && s.workers[a] != Joined) || At(s, t) == Cleared(a)
    ensures StopInv(s')
  {
  }

  predicate Starts(e: Event) {
    e.Reserve? || e.TakeDisk? || e.Abort? || e.Spawn?
  }

  lemma StartStops(s: State, e: Event)
    requires CoreInv(s) && Starts(e)
    ensures StopInv(Step(s, e))
  {
    var s' := Step(s, e);
    assert forall u :: u != e.t ==> At(s', u) == At(s, u);
    StopFrame(s, s', e.t);
  }

  lemma LeaveStops(s: State, e: Event)
    requires CoreInv(s) && (e.Commit? || e.DropReservation?)
    ensures StopInv(Step(s, e))
  {
    var s' := Step(s, e);
    assert forall u :: u != e.t ==> At(s', u) == At(s, u);
    StopFrame(s, s', e.t);
  }

  lemma JoinStops(s: State, e: Event)
    requires CoreInv(s) && (e.Take? || e.Join? || e.Restore?)
    ensures StopInv(Step(s, e))
  {
    var s' := Step(s, e);
    assert forall u :: u != e.t ==> At(s', u) == At(s, u);
    StopFrame(s, s', e.t);
  }

  lemma ClearStopStops(s: State, t: nat)
    requires CoreInv(s)
    ensures StopInv(Step(s, ClearStop(t)))
  {
    var s' := Step(s, ClearStop(t));
    if s' != s {
      assert forall u :: u != t ==> At(s', u) == At(s, u);
      assert Active(At(s, t));
      forall b | b in s.workers ensures s.workers[b] == Joined {
        AllJoined(s, t, b);
      }
    }
  }

  /** A start that has the disk finds no worker short of joined. */
  lemma AllJoined(s: State, t: nat, b: nat)
    requires SlotInv(s) && DiskInv(s) && At(s, t).HasDisk? && b in s.workers
    ensures s.workers[b] == Joined
  {
    assert Active(At(s, t)) && Cell(At(s, t).a) in s.disks;
    assert s.workers[b] == Joined || WorkerPlace(b, s.workers[b]) in s.disks;
  }

  lemma RequestStopStops(s: State, t: nat)
    requires CoreInv(s)
    ensures StopInv(Step(s, RequestStop(t)))
  {
    var s' := Step(s, RequestStop(t));
    if s' != s {
      assert forall u :: u != t ==> At(s', u) == At(s, u);
    }
  }

  lemma WorkerStops(s: State, e: Event)
    requires CoreInv(s) && (e.WorkerStart? || e.WorkerEnd?)
    ensures StopInv(Step(s, e))
  {
    assert forall u :: At(Step(s, e), u) == At(s, u);
  }

  lemma StepStops(s: State, e: Event)
    requires CoreInv(s)
    ensures StopInv(Step(s, e))
  {
    match e
    case ClearStop(t) => ClearStopStops(s, t);
    case RequestStop(t) => RequestStopStops(s, t);
    case WorkerStart(_) => WorkerStops(s, e);
    case WorkerEnd(_) => WorkerStops(s, e);
    case _ =>
      if Starts(e) {
        StartStops(s, e);
      } else if e.Take? || e.Join? || e.Restore? {
        JoinStops(s, e);
      } else {
        LeaveStops(s, e);
      }
  }

  lemma StepCore(s: State, e: Event)
    requires CoreInv(s)
    ensures CoreInv(Step(s, e))
  {
    StepHandles(s, e);
    StepStops(s, e);
    match e
    case Reserve(t) => ReserveKeeps(s, t);
    case TakeDisk(t) => TakeDiskKeeps(s, t);
    case ClearStop(t) => ClearStopKeeps(s, t);
    case Abort(t) => AbortKeeps(s, t);
    case Spawn(t) => SpawnKeeps(s, t);
    case Commit(t) => CommitKeeps(s, t);
    case DropReservation(t) => DropReservationKeeps(s, t);
    case RequestStop(t) => RequestStopKeeps(s, t);
    case Take(t) => TakeKeeps(s, t);
    case Join(t) => JoinKeeps(s, t);
    case Restore(t) => RestoreKeeps(s, t);
    case WorkerStart(_) => WorkerKeeps(s, e);
    case WorkerEnd(_) => WorkerKeeps(s, e);
  }

  // ---- who has the disk, who has the handle ----

  /** Nothing of the disk moves, and thread `t` is not the one that has it. */
  lemma OwnerSame(s: State, s': State, t: nat)
    requires OwnerInv(s) && (forall u :: u != t ==> At(s', u) == At(s, u))
    requires s'.disks == s.disks && s'.workers == s.workers
    requires !At(s, t).HasDisk? && !At(s, t).Cleared? && !At(s, t).Restoring?
    ensures OwnerInv(s')
  {
    forall a | Cell(a) in s'.disks && !(a in s'.workers && s'.workers[a] == Fresh)
      ensures exists u :: At(s', u) == HasDisk(a) || At(s', u) == Cleared(a)
    {
      var u :| At(s, u) == HasDisk(a) || At(s, u) == Cleared(a);
      assert At(s', u) == At(s, u);
    }
  }

  /** The disk goes from where it was to the cell of thread `t`, or stays there. */
  lemma OwnerCell(s: State, t: nat, a: nat)
    requires s.disks == {Cell(a)} && (At(s, t) == HasDisk(a) || At(s, t) == Cleared(a))
    ensures OwnerInv(s)
  {
  }

  lemma OneDisk(s: State, p: Place, q: Place)
    requires DiskInv(s) && p in s.disks
    ensures s.disks == {p} && Move(s.disks, p, q) == {q}
  {
  }

  lemma StartOwners(s: State, e: Event)
    requires Inv(s) && (e.TakeDisk? || e.ClearStop? || e.Abort? || e.Spawn?) && Step(s, e) != s
    ensures OwnerInv(Step(s, e))
  {
    var s', t := Step(s, e), e.t;
    assert forall u :: u != t ==> At(s', u) == At(s, u);
    var a := At(s, t).a;
    match e
    case TakeDisk(_) =>
      if Home in s.disks {
        OneDisk(s, Home, Cell(a));
        OwnerCell(s', t, a);
      } else {
        OwnerSame(s, s', t);
      }
    case ClearStop(_) =>
      OneDisk(s, Cell(a), Home);
      OwnerCell(s', t, a);
    case Abort(_) => OneDisk(s, Cell(a), Home);
    case Spawn(_) => OneDisk(s, Cell(a), Home);
  }

  lemma EndOwners(s: State, e: Event)
    requires Inv(s) && (e.Join? || e.Restore?) && Step(s, e) != s
    ensures OwnerInv(Step(s, e))
  {
    var s', t := Step(s, e), e.t;
    if e.Join? {
      OneDisk(s, Outcome(At(s, t).h), Hand(t));
      assert s'.disks == {Hand(t)} && At(s', t).Restoring?;
    } else {
      OneDisk(s, Hand(t), Home);
      assert s'.disks == {Home};
    }
  }

  lemma WorkerOwners(s: State, e: Event)
    requires Inv(s) && (e.WorkerStart? || e.WorkerEnd?) && Step(s, e) != s
    ensures OwnerInv(Step(s, e))
  {
    var a := e.a;
    OneDisk(s, WorkerPlace(a, s.workers[a]), if e.WorkerStart? then InWorker(a) else Outcome(a));
  }

  lemma StepOwners(s: State, e: Event)
    requires Inv(s)
    ensures OwnerInv(Step(s, e))
  {
    var s' := Step(s, e);
    if s' != s {
      if e.TakeDisk? || e.ClearStop? || e.Abort? || e.Spawn? {
        StartOwners(s, e);
      } else if e.Join? || e.Restore? {
        EndOwners(s, e);
      } else if e.WorkerStart? || e.WorkerEnd? {
        WorkerOwners(s, e);
      } else {
        assert forall u :: u != e.t ==> At(s', u) == At(s, u);
        OwnerSame(s, s', e.t);
      }
    }
  }

  /** Thread `t` holds no handle, and the slot keeps the one it has. */
  lemma WorkersSame(s: State, s': State, t: nat)
    requires WorkerInv(s) && (forall u :: u != t ==> At(s', u) == At(s, u))
    requires forall a :: a in s'.workers && s'.workers[a] != Joined ==> a in s.workers && s.workers[a] != Joined
    requires s.slot.Running? ==> s'.slot == s.slot
    requires !At(s, t).HasWorker? && !At(s, t).Joining?
    ensures WorkerInv(s')
  {
    forall a | a in s'.workers && s'.workers[a] != Joined && s'.slot != Running(a)
      ensures exists u :: At(s', u) == HasWorker(a) || At(s', u) == Joining(a)
    {
      var u :| At(s, u) == HasWorker(a) || At(s, u) == Joining(a);
      assert At(s', u) == At(s, u);
    }
  }

  /** Thread `t` passes the handle `h` on, or has joined its worker. */
  lemma HandlePasses(s: State, s': State, t: nat, h: nat)
    requires WorkerInv(s) && (forall u :: u != t ==> At(s', u) == At(s, u))
    requires forall a :: a in s'.workers && s'.workers[a] != Joined && a != h ==> a in s.workers && s.workers[a] != Joined
    requires At(s, t) == HasWorker(h) || At(s, t) == Joining(h) || !(At(s, t).HasWorker? || At(s, t).Joining?)
    requires s.slot.Running? && s.slot.handle != h ==> s'.slot == s.slot
    requires h in s'.workers && s'.workers[h] != Joined ==>
               s'.slot == Running(h) || At(s', t) == HasWorker(h) || At(s', t) == Joining(h)
    ensures WorkerInv(s')
  {
    forall a | a in s'.workers && s'.workers[a] != Joined && s'.slot != Running(a)
      ensures exists u :: At(s', u) == HasWorker(a) || At(s', u) == Joining(a)
    {
      if a != h {
        var u :| At(s, u) == HasWorker(a) || At(s, u) == Joining(a);
        assert At(s', u) == At(s, u);
      } else {
        assert At(s', t) == HasWorker(h) || At(s', t) == Joining(h);
      }
    }
  }

  lemma StartWorkers(s: State, e: Event)
    requires Inv(s) && (e.Spawn? || e.Commit?) && Step(s, e) != s
    ensures WorkerInv(Step(s, e))
  {
    var s', t := Step(s, e), e.t;
    assert forall u :: u != t ==> At(s', u) == At(s, u);
    assert e.Commit? ==> Active(At(s, t));
    HandlePasses(s, s', t, At(s, t).a);
  }

  lemma TakeWorkers(s: State, e: Event)
    requires Inv(s) && (e.Take? || e.Join?) && Step(s, e) != s
    ensures WorkerInv(Step(s, e))
  {
    var s', t := Step(s, e), e.t;
    assert forall u :: u != t ==> At(s', u) == At(s, u);
    if e.Join? {
      HandlePasses(s, s', t, At(s, t).h);
    } else if s.slot.Running? {
      HandlePasses(s, s', t, s.slot.handle);
    } else {
      WorkersSame(s, s', t);
    }
  }

  lemma StepWorkers(s: State, e: Event)
    requires Inv(s)
    ensures WorkerInv(Step(s, e))
  {
    var s' := Step(s, e);
    if s' != s {
      if e.Spawn? || e.Commit? {
        StartWorkers(s, e);
      } else if e.Take? || e.Join? {
        TakeWorkers(s, e);
      } else if e.WorkerStart? || e.WorkerEnd? {
        assert forall u :: At(s', u) == At(s, u);
        RunningWorkers(s, s');
      } else if e.Reserve? || e.DropReservation? {
        SlotWorkers(s, e);
      } else {
        OtherWorkers(s, e);
      }
    }
  }

  lemma SlotWorkers(s: State, e: Event)
    requires Inv(s) && (e.Reserve? || e.DropReservation?)
    ensures WorkerInv(Step(s, e))
  {
    var s' := Step(s, e);
    if s' != s {
      assert forall u :: u != e.t ==> At(s', u) == At(s, u);
      WorkersSame(s, s', e.t);
    }
  }

  lemma OtherWorkers(s: State, e: Event)
    requires Inv(s) && (e.TakeDisk? || e.ClearStop? || e.Abort? || e.RequestStop? || e.Restore?)
    ensures WorkerInv(Step(s, e))
  {
    var s' := Step(s, e);
    if s' != s {
      assert forall u :: u != e.t ==> At(s', u) == At(s, u);
      WorkersSame(s, s', e.t);
    }
  }

  lemma RunningWorkers(s: State, s': State)
    requires WorkerInv(s) && (forall u :: At(s', u) == At(s, u)) && s'.slot == s.slot
    requires forall a :: a in s'.workers && s'.workers[a] != Joined ==> a in s.workers && s.workers[a] != Joined
    ensures WorkerInv(s')
  {
    forall a | a in s'.workers && s'.workers[a] != Joined && s'.slot != Running(a)
      ensures exists u :: At(s', u) == HasWorker(a) || At(s', u) == Joining(a)
    {
      var u :| At(s, u) == HasWorker(a) || At(s, u) == Joining(a);
      assert At(s', u) == At(s, u);
    }
  }

  lemma StepKeeps(s: State, e: Event)
    requires Inv(s)
    ensures Inv(Step(s, e))
  {
    StepCore(s, e);
    StepOwners(s, e);
    StepWorkers(s, e);
  }

  lemma {:induction false} RunKeeps(threads: set<nat>, es: seq<Event>)
    ensures Inv(Run(Init(threads), es))
  {
    if es == [] {
      InitInv(threads);
    } else {
      var k := |es| - 1;
      RunKeeps(threads, es[..k]);
      StepKeeps(Run(Init(threads), es[..k]), es[k]);
    }
  }

  /**
   Under every interleaving: the slot is starting exactly while one thread holds an open reservation; every
   committed handle was taken once, in order, or is the one in the slot; at most one worker is short of
   joined, and until it is its handle is with somebody who will pass it on or join; the disk is in exactly one place, a
   starting worker finds it in its cell, and wherever it is somebody is about to move it on, unless it is home.
   */
  lemma ProtocolLaws(threads: set<nat>, es: seq<Event>)
    ensures var s := Run(Init(threads), es);
            && (s.slot == Starting <==> exists t :: Active(At(s, t)))
            && (forall t, u :: Active(At(s, t)) && Active(At(s, u)) ==> t == u)
            && s.committed == s.taken + (if s.slot.Running? then [s.slot.handle] else [])
            && (forall i, j :: 0 <= i < j < |s.committed| ==> s.committed[i] != s.committed[j])
            && |s.disks| == 1
            && (forall a, b :: a in s.workers && b in s.workers && s.workers[a] != Joined && s.workers[b] != Joined ==> a == b)
            && (forall a :: a in s.workers && s.workers[a] == Fresh ==> Cell(a) in s.disks)
            && OwnerInv(s) && WorkerInv(s)
  {
    RunKeeps(threads, es);
    var s := Run(Init(threads), es);
    var p :| p in s.disks;
    assert s.disks == {p};
    forall a, b | a in s.workers && b in s.workers && s.workers[a] != Joined && s.workers[b] != Joined
      ensures a == b
    {
      assert WorkerPlace(a, s.workers[a]) == WorkerPlace(b, s.workers[b]);
    }
  }

  /** So whenever no thread is at work and no worker is held, the disk is home for the next start. */
  lemma DiskComesHome(threads: set<nat>, es: seq<Event>)
    requires var s := Run(Init(threads), es); s.slot == Idle && forall t :: At(s, t) == Outside
    ensures Run(Init(threads), es).disks == {Home}
  {
    RunKeeps(threads, es);
    var s := Run(Init(threads), es);
    var p :| p in s.disks;
    match p
    case Home =>
    case Cell(_) => assert false;
    case InWorker(_) => assert false;
    case Outcome(_) => assert false;
    case Hand(_) => assert false;
  }

  /** A thread that stops a worker leaves without one only if there is none and none is being started. */
  lemma TakeWaits(s: State, t: nat)
    requires Inv(s) && At(s, t) == Taking
    ensures var pc := At(Step(s, Take(t)), t);
            && (pc == Taking <==> exists u :: Active(At(s, u)))
            && (pc == Outside <==> !s.slot.Running? && forall u :: !Active(At(s, u)))
            && (pc.Joining? <==> s.slot.Running?) && (pc.Joining? ==> pc.h == s.slot.handle)
  {
  }

  // ---- who was asked to stop ----

  /** Under every interleaving: a worker not joined yet will see the stop flag if and only if it was asked to stop. */
  lemma StopSeen(threads: set<nat>, es: seq<Event>, h: nat)
    requires var s := Run(Init(threads), es); h in s.workers && s.workers[h] != Joined
    ensures var s := Run(Init(threads), es); s.stop <==> h in s.asked
  {
    RunKeeps(threads, es);
  }

  /**
   Whom a stop request reaches: every worker not joined yet, and of the starts under way exactly those past
   `clear_stop`. The flag of the others is cleared after the request, so nobody has asked their worker.
   */
  lemma RequestReaches(s: State, t: nat)
    requires Inv(s) && At(s, t) == Outside
    ensures var s' := Step(s, RequestStop(t));
            && (forall h :: h in s.workers && s.workers[h] != Joined ==> h in s'.asked)
            && (forall u :: Active(At(s, u)) && !At(s, u).Failing? ==>
                  (At(s, u).a in s'.asked <==> At(s, u).Cleared? || At(s, u).HasWorker?))
  {
  }

  /** Thread `t` starts a worker and clears the flag after `u` asked for a stop; `u` then takes the worker. */
  function LostStop(t: nat, u: nat): seq<Event> {
    [Reserve(t), TakeDisk(t), RequestStop(u), ClearStop(t), Spawn(t), Commit(t), Take(u)]
  }

  /** "A worker someone waits for was asked to stop" fails, from any state in which a start can begin. */
  lemma StopCanBeLost(s: State, t: nat, u: nat)
    requires Inv(s) && t != u && At(s, t) == At(s, u) == Outside && s.slot == Idle && Home in s.disks
    ensures var s', h := Run(s, LostStop(t, u)), s.nextId;
            At(s', u) == Joining(h) && h in s'.workers && s'.workers[h] == Fresh && !s'.stop && h !in s'.asked
  {
    var es, a := LostStop(t, u), s.nextId;
    var s2, s4, s6 := Run(s, es[..2]), Run(s, es[..4]), Run(s, es[..6]);
    RunTwo(s, [], es[0], es[1]);
    RunTwo(s, es[..2], es[2], es[3]);
    RunTwo(s, es[..4], es[4], es[5]);
    assert [] + [es[0], es[1]] == es[..2] && es[..2] + [es[2], es[3]] == es[..4] && es[..4] + [es[4], es[5]] == es[..6];
    BeginStart(s, t, u);
    ClearedLate(s2, t, u, a);
    SpawnedLate(s4, t, u, a);
    TakenUnasked(s6, u, a);
  }

  lemma BeginStart(s: State, t: nat, u: nat)
    requires StopInv(s) && t != u && At(s, t) == At(s, u) == Outside && s.slot == Idle && Home in s.disks
    ensures var s' := Step(Step(s, Reserve(t)), TakeDisk(t));
            && At(s', t) == HasDisk(s.nextId) && At(s', u) == Outside
            && s.nextId !in s'.asked && s'.cleared != Some(s.nextId)
  {
  }

  lemma ClearedLate(s: State, t: nat, u: nat, a: nat)
    requires t != u && At(s, t) == HasDisk(a) && At(s, u) == Outside && a !in s.asked && s.cleared != Some(a)
    ensures var s' := Step(Step(s, RequestStop(u)), ClearStop(t));
            At(s', t) == Cleared(a) && At(s', u) == Taking && !s'.stop && a !in s'.asked
  {
  }

  lemma SpawnedLate(s: State, t: nat, u: nat, a: nat)
    requires t != u && At(s, t) == Cleared(a) && At(s, u) == Taking
    ensures var s' := Step(Step(s, Spawn(t)), Commit(t));
            && s'.slot == Running(a) && At(s', u) == Taking && a in s'.workers && s'.workers[a] == Fresh
            && s'.stop == s.stop && s'.asked == s.asked
  {
  }

  lemma TakenUnasked(s: State, u: nat, a: nat)
    requires s.slot == Running(a) && At(s, u) == Taking
    ensures var s' := Step(s, Take(u));
            At(s', u) == Joining(a) && s'.workers == s.workers && s'.stop == s.stop && s'.asked == s.asked
  {
  }

  lemma RunTwo(s: State, es: seq<Event>, a: Event, b: Event)
    ensures Run(s, es + [a, b]) == Step(Step(Run(s, es), a), b)
  {
    assert (es + [a, b])[..|es| + 1] == es + [a] && (es + [a])[..|es|] == es;
  }

  // ---- the slot as the threads share it ----

  /**
   The mutex-protected slot. `state` is the whole protocol, of which the slot is the shared part; each method is what
   one thread `t` does under the lock, so other threads' steps come between calls.
   */
  class WorkerCell {
    var slot: Slot
    var stop: bool
    ghost var state: State

    ghost predicate Valid()
      reads this
    {
      Inv(state) && slot == state.slot && stop == state.stop
    }

    constructor (ghost threads: set<nat>)
      ensures Valid() && state == Init(threads)
    {
      slot, stop := Idle, false;
      state := Init(threads);
      InitInv(threads);
    }

    /** `reserve`: granted only if no other start is under way and no worker is held. */
    method Reserve(t: nat) returns (granted: bool)
      requires Valid() && At(state, t) == Outside
      modifies this
      ensures Valid() && state == Step(old(state), Event.Reserve(t))
      ensures granted <==> At(state, t).HasReservation?
      ensures granted <==> !old(slot).Running? && !(exists u :: Active(At(old(state), u)))
    {
      StepKeeps(state, Event.Reserve(t));
      state := Step(state, Event.Reserve(t));
      if slot != Idle {
        return false;
      }
      slot := Starting;
      return true;
    }

    /** `commit`: the slot was held for this start, so no handle is overwritten. */
    method Commit(t: nat, handle: nat)
      requires Valid() && At(state, t) == HasWorker(handle)
      modifies this
      ensures Valid() && state == Step(old(state), Event.Commit(t))
      ensures old(slot) == Starting && handle !in old(state).committed
      ensures slot == Running(handle) && state.committed == old(state).committed + [handle]
    {
      StepKeeps(state, Event.Commit(t));
      assert Active(At(state, t));
      state := Step(state, Event.Commit(t));
      slot := Running(handle);
    }

    /** Dropping a reservation: one that was committed is inactive; the other frees the slot for the next start. */
    method DropReservation(t: nat, active: bool)
      requires Valid() && (active ==> At(state, t).Failing?)
      modifies this
      ensures Valid() && state == if active then Step(old(state), Event.DropReservation(t)) else old(state)
      ensures active ==> slot == Idle && forall u :: !Active(At(state, u))
    {
      if !active {
        return;
      }
      StepKeeps(state, Event.DropReservation(t));
      DroppedIdle(state, t);
      state := Step(state, Event.DropReservation(t));
      if slot == Starting {
        slot := Idle;
      }
    }

    /** `clear_stop`: a request made so far does not concern the worker about to be spawned. */
    method ClearStop(t: nat)
      requires Valid() && At(state, t).HasDisk?
      modifies this
      ensures Valid() && state == Step(old(state), Event.ClearStop(t))
      ensures !stop && At(state, t).Cleared? && At(state, t).a !in state.asked
    {
      StepKeeps(state, Event.ClearStop(t));
      state := Step(state, Event.ClearStop(t));
      stop := false;
    }

    /** `request_stop`: reaches every worker not joined yet. */
    method RequestStop(t: nat)
      requires Valid() && At(state, t) == Outside
      modifies this
      ensures Valid() && state == Step(old(state), Event.RequestStop(t))
      ensures stop && forall h :: h in state.workers && state.workers[h] != Joined ==> h in state.asked
    {
      StepKeeps(state, Event.RequestStop(t));
      RequestReaches(state, t);
      state := Step(state, Event.RequestStop(t));
      stop := true;
    }

    /** One round of `take_worker`: a handle leaves with one taker only; `again` asks for another round. */
    method TakeOnce(t: nat) returns (handle: Option<nat>, again: bool)
      requires Valid() && At(state, t) == Taking
      modifies this
      ensures Valid() && state == Step(old(state), Take(t))
      ensures again <==> exists u :: Active(At(old(state), u))
      ensures handle.Some? ==>
                && At(state, t) == Joining(handle.value) && handle.value !in old(state).taken
                && state.taken == old(state).taken + [handle.value] && state.committed == state.taken
      ensures handle == None ==> state.taken == old(state).taken && slot == old(slot)
      ensures At(state, t) == (if handle.Some? then Joining(handle.value) else if again then Taking else Outside)
    {
      StepKeeps(state, Take(t));
      state := Step(state, Take(t));
      var was := slot;
      slot := Idle;
      match was {
        case Running(h) => handle, again := Some(h), false;
        case Idle => handle, again := None, false;
        case Starting =>
          slot := Starting;
          handle, again := None, true;
      }
      if handle.Some? {
        TakenOnce(state, handle.value);
      }
    }
  }

  /** A reservation that is dropped was the only one. */
  lemma DroppedIdle(s: State, t: nat)
    requires SlotInv(s) && At(s, t).Failing?
    ensures s.slot == Starting && forall u :: !Active(At(Step(s, DropReservation(t)), u))
  {
    assert Active(At(s, t));
    var s' := Step(s, DropReservation(t));
    forall u ensures !Active(At(s', u)) {
      assert u != t ==> At(s', u) == At(s, u);
    }
  }

  /** The last handle taken was not taken before. */
  lemma TakenOnce(s: State, h: nat)
    requires HandleInv(s) && s.taken != [] && s.taken[|s.taken| - 1] == h && s.committed == s.taken
    ensures h !in s.taken[..|s.taken| - 1]
  {
  }
}
