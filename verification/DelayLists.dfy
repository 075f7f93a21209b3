/** Two lists of 32-bit wake times, one for the current wrap of the tick counter and one for the next,
    read as one list of absolute wake times. */
module DelayLists {
  import opened Words
  import opened Rings
  import opened Kernel

  /** Every wake time is a 32-bit value. */
  ghost predicate Fits(d: seq<Timed>) {
    forall e | e in d :: e.time <= MAX_DELAY
  }

  /** The list with every wake time counted from an absolute time. */
  function Lift(d: seq<Timed>, base: nat): (r: seq<Timed>)
    ensures |r| == |d|
  {
    seq(|d|, i requires 0 <= i < |d| => Timed(d[i].task, base + d[i].time))
  }

  /** The current list belongs to this epoch, the overflow list to the next. */
  function Merged(d: seq<Timed>, o: seq<Timed>, epoch: nat): seq<Timed> {
    Lift(d, At(epoch, 0)) + Lift(o, At(epoch + 1, 0))
  }

  lemma MergedNames(d: seq<Timed>, o: seq<Timed>, epoch: nat)
    ensures Names(Merged(d, o, epoch)) == Names(d) + Names(o)
  {
  }

  lemma RemovedLeft<T>(a: seq<T>, b: seq<T>, p: nat)
    requires p < |a|
    ensures Removed(a + b, p) == Removed(a, p) + b
  {
  }

  lemma RemovedRight<T>(a: seq<T>, b: seq<T>, p: nat)
    requires p < |b|
    ensures Removed(a + b, |a| + p) == a + Removed(b, p)
  {
  }

  lemma LiftRemoved(d: seq<Timed>, base: nat, p: nat)
    requires p < |d|
    ensures Lift(Removed(d, p), base) == Removed(Lift(d, base), p)
    ensures forall e | e in Removed(d, p) :: e in d
  {
  }

  lemma DropLeft(d: seq<Timed>, o: seq<Timed>, epoch: nat, x: TaskId)
    requires x in Names(d)
    ensures x in Names(Merged(d, o, epoch))
    ensures DropTimed(Merged(d, o, epoch), x) == Merged(DropTimed(d, x), o, epoch)
    ensures forall e | e in DropTimed(d, x) :: e in d
  {
    hide Lift, Names, Position;
    var p := Position(Names(d), x);
    MergedNames(d, o, epoch);
    PositionLeft(Names(d), Names(o), x);
    LiftRemoved(d, At(epoch, 0), p);
    RemovedLeft(Lift(d, At(epoch, 0)), Lift(o, At(epoch + 1, 0)), p);
  }

  lemma DropRight(d: seq<Timed>, o: seq<Timed>, epoch: nat, x: TaskId)
    requires x !in Names(d) && x in Names(o)
    ensures x in Names(Merged(d, o, epoch))
    ensures DropTimed(Merged(d, o, epoch), x) == Merged(d, DropTimed(o, x), epoch)
    ensures forall e | e in DropTimed(o, x) :: e in o
  {
    hide Lift, Names, Position;
    var p := Position(Names(o), x);
    MergedNames(d, o, epoch);
    PositionRight(Names(d), Names(o), x);
    LiftRemoved(o, At(epoch + 1, 0), p);
    RemovedRight(Lift(d, At(epoch, 0)), Lift(o, At(epoch + 1, 0)), p);
  }

  lemma InsertJoinLeft<T>(a: seq<T>, b: seq<T>, p: nat, x: T)
    requires p <= |a|
    ensures InsertAt(a + b, p, x) == InsertAt(a, p, x) + b
  {
  }

  lemma InsertJoinRight<T>(a: seq<T>, b: seq<T>, p: nat, x: T)
    requires p <= |b|
    ensures InsertAt(a + b, |a| + p, x) == a + InsertAt(b, p, x)
  {
  }

  lemma LiftInsert(d: seq<Timed>, base: nat, p: nat, e: Timed)
    requires p <= |d|
    ensures Lift(InsertAt(d, p, e), base) == InsertAt(Lift(d, base), p, Timed(e.task, base + e.time))
  {
  }

  /** The times of the merged list, each seen from the list it comes from. */
  lemma MergedTimes(d: seq<Timed>, o: seq<Timed>, epoch: nat)
    ensures var m := Times(Merged(d, o, epoch));
      && |m| == |d| + |o|
      && (forall i {:trigger m[i]} :: 0 <= i < |d| ==> m[i] == At(epoch, Times(d)[i]))
      && (forall i {:trigger m[i]} :: |d| <= i < |m| ==> m[i] == At(epoch + 1, Times(o)[i - |d|]))
  {
  }

  lemma TimesFit(d: seq<Timed>)
    requires Fits(d)
    ensures forall i :: 0 <= i < |d| ==> Times(d)[i] <= MAX_DELAY
  {
    forall i | 0 <= i < |d|
      ensures Times(d)[i] <= MAX_DELAY
    {
      assert d[i] in d;
    }
  }

  /** Everything on the overflow list is later than any time of this epoch ... */
  lemma PlaceLeft(d: seq<Timed>, o: seq<Timed>, epoch: nat, low: Tick)
    ensures SortedPosition(Times(Merged(d, o, epoch)), At(epoch, low)) == SortedPosition(Times(d), low)
  {
    hide Lift, Times, Merged, SortedPosition;
    MergedTimes(d, o, epoch);
    SortedPositionUnique(Times(Merged(d, o, epoch)), At(epoch, low), SortedPosition(Times(d), low));
  }

  /** ... and everything on the current list earlier than any time of the next. */
  lemma PlaceRight(d: seq<Timed>, o: seq<Timed>, epoch: nat, low: Tick)
    requires Fits(d)
    ensures SortedPosition(Times(Merged(d, o, epoch)), At(epoch + 1, low)) == |d| + SortedPosition(Times(o), low)
  {
    hide Lift, Times, Merged, SortedPosition, Fits;
    MergedTimes(d, o, epoch);
    TimesFit(d);
    SortedPositionUnique(Times(Merged(d, o, epoch)), At(epoch + 1, low), |d| + SortedPosition(Times(o), low));
  }

  /** Inserting into the current list by 32-bit time is inserting into the whole list by absolute
      time. */
  lemma InsertLeft(d: seq<Timed>, o: seq<Timed>, epoch: nat, x: TaskId, low: Tick)
    ensures Merged(InsertTimed(d, Timed(x, low)), o, epoch)
         == InsertTimed(Merged(d, o, epoch), Timed(x, At(epoch, low)))
  {
    hide InsertAt, Lift, SortedPosition, Times;
    var p := SortedPosition(Times(d), low);
    PlaceLeft(d, o, epoch, low);
    LiftInsert(d, At(epoch, 0), p, Timed(x, low));
    InsertJoinLeft(Lift(d, At(epoch, 0)), Lift(o, At(epoch + 1, 0)), p, Timed(x, At(epoch, low)));
  }

  /** Inserting into the overflow list likewise. */
  lemma InsertRight(d: seq<Timed>, o: seq<Timed>, epoch: nat, x: TaskId, low: Tick)
    requires Fits(d)
    ensures InsertTimed(Merged(d, o, epoch), Timed(x, At(epoch + 1, low)))
         == Merged(d, InsertTimed(o, Timed(x, low)), epoch)
  {
    hide InsertAt, Lift, SortedPosition, Times;
    var p := SortedPosition(Times(o), low);
    PlaceRight(d, o, epoch, low);
    LiftInsert(o, At(epoch + 1, 0), p, Timed(x, low));
    InsertJoinRight(Lift(d, At(epoch, 0)), Lift(o, At(epoch + 1, 0)), p, Timed(x, At(epoch + 1, low)));
  }

  /** A task named in either list is named in the merged one, and the other way round. */
  lemma MergedHas(d: seq<Timed>, o: seq<Timed>, epoch: nat, x: TaskId)
    ensures x in Names(Merged(d, o, epoch)) <==> x in Names(d) || x in Names(o)
  {
    MergedNames(d, o, epoch);
  }

  /** Switching the lists at a wrap: with the current list empty the merged list stays what it was. */
  lemma Switched(o: seq<Timed>, epoch: nat)
    ensures Merged(o, [], epoch + 1) == Merged([], o, epoch)
  {
  }
}
