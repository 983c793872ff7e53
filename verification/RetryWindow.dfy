/** The receiver-side retransmission budget kept per offset, `PktNumWindow`. */
module RetryWindow {
  import opened Bytes

  function BlockBase(offset: nat): nat {
    offset - offset % BLOCK
  }

  /** `[retrans, received]` in the source. */
  datatype Condition = Condition(retrans: nat, received: nat)

  datatype WindowState = WindowState(priorityRecord: map<nat, nat>, record: map<nat, Condition>)
  {
    function UpdateRetrans(offset: nat, retrans: nat, received: nat): WindowState {
      this.(record := record[offset := Condition(retrans, received)])
    }

    function AddItem(offset: nat, priority: nat): WindowState {
      var w := if offset % BLOCK == 0 then this.(priorityRecord := priorityRecord[offset := priority]) else this;
      w.UpdateRetrans(offset, priority, 1)
    }

    function GetPriority(offset: nat): nat {
      if offset in priorityRecord then priorityRecord[offset] else 0
    }

    function CheckReceived(offset: nat, sent: bool): (WindowState, bool) {
      if offset in record then
        var c := record[offset];
        if c.received == 1 then (this, true)
        else if sent then (this, false)
        else if c.retrans > 0 then (UpdateRetrans(offset, c.retrans - 1, c.received), false)
        else (UpdateRetrans(offset, 0, 1), false)
      else if sent then (this, false)
      else
        var priority := GetPriority(BlockBase(offset));
        if priority == 0 then (AddItem(BlockBase(offset), 3).UpdateRetrans(offset, 2, 0), false)
        else (UpdateRetrans(offset, priority - 1, 0), false)
    }

    function GetRetransTimes(offset: nat): nat {
      if offset in record && record[offset].received != 1 then record[offset].retrans + 1 else 0
    }

    /** Refusals an offset still has in front of it: the recorded ones, or one more than the
        priority of its block, which is 3 when unknown. */
    function Budget(offset: nat): nat {
      if offset in record then GetRetransTimes(offset)
      else
        var p := GetPriority(BlockBase(offset));
        (if p == 0 then 3 else p) + 1
    }

    /** Nothing of the block at `base` is known or recorded. */
    ghost predicate Untouched(base: nat) {
      GetPriority(base) == 0 && forall x :: x in record ==> BlockBase(x) != base
    }

    /** The block of this offset is known, or the offset is not the block's own entry. */
    predicate Settled(offset: nat) {
      GetPriority(BlockBase(offset)) != 0 || BlockBase(offset) != offset
    }
  }

  /** One check: it answers "received" exactly on a spent budget, and otherwise spends one unit. */
  lemma CheckSpendsOne(w: WindowState, offset: nat)
    ensures var (w', answer) := w.CheckReceived(offset, false);
      && (answer <==> w.Budget(offset) == 0)
      && (answer ==> w' == w)
      && (!answer ==> w'.Budget(offset) == w.Budget(offset) - 1)
      && offset in w'.record
      && w'.Budget(offset) == w'.GetRetransTimes(offset)
  {
  }

  /** A check on the sender's side only looks: it answers whether the offset was accepted. */
  lemma CheckLooks(w: WindowState, offset: nat)
    ensures w.CheckReceived(offset, true) == (w, offset in w.record && w.record[offset].received == 1)
  {
  }

  /** An added offset counts as received from then on, and its priority is that of its block if it is the
      block's own entry; every other offset and block keeps what it had. */
  lemma AddItemEffect(w: WindowState, offset: nat, priority: nat, o: nat)
    ensures var v := w.AddItem(offset, priority);
      && v.CheckReceived(offset, false) == (v, true) && v.CheckReceived(offset, true) == (v, true)
      && v.GetRetransTimes(offset) == 0 && v.record[offset].retrans == priority
      && v.GetPriority(o) == (if o == offset && offset % BLOCK == 0 then priority else w.GetPriority(o))
      && (o != offset ==> (o in v.record <==> o in w.record) && (o in w.record ==> v.record[o] == w.record[o]))
  {
  }

  /** A check of one offset never raises the budget of another, and lowers it only for the
      entry of a block whose priority was unknown. */
  lemma CheckFrames(w: WindowState, x: nat, offset: nat)
    requires x != offset
    ensures var w' := w.CheckReceived(x, false).0;
      && w'.Budget(offset) <= w.Budget(offset)
      && (w.Settled(offset) ==> w'.Budget(offset) == w.Budget(offset) && w'.Settled(offset))
      && (offset in w.record ==> offset in w'.record)
  {
  }

  function Run(w: WindowState, checks: seq<nat>): WindowState {
    if checks == [] then w
    else Run(w, checks[..|checks| - 1]).CheckReceived(checks[|checks| - 1], false).0
  }

  function Checks(checks: seq<nat>, offset: nat): nat {
    if checks == [] then 0
    else Checks(checks[..|checks| - 1], offset) + (if checks[|checks| - 1] == offset then 1 else 0)
  }

  /** The checks of `offset` among `checks` that were answered "not received". */
  function Refusals(w: WindowState, checks: seq<nat>, offset: nat): nat {
    if checks == [] then 0
    else
      var k := |checks| - 1;
      Refusals(w, checks[..k], offset) +
      (if checks[k] == offset && !Run(w, checks[..k]).CheckReceived(offset, false).1 then 1 else 0)
  }

  /** In any interleaving, refusals of an offset are paid for by its budget. */
  lemma {:induction false} RefusalsWithinBudget(w: WindowState, checks: seq<nat>, offset: nat)
    ensures Refusals(w, checks, offset) + Run(w, checks).Budget(offset) <= w.Budget(offset)
  {
    if checks == [] {
    } else {
      var k := |checks| - 1;
      RefusalsWithinBudget(w, checks[..k], offset);
      var mid := Run(w, checks[..k]);
      if checks[k] == offset {
        CheckSpendsOne(mid, offset);
      } else {
        CheckFrames(mid, checks[k], offset);
      }
    }
  }

  /** For a settled offset the count is exact: every check is refused until the budget is
      spent, and every later one is accepted. */
  lemma {:induction false} RefusalsExact(w: WindowState, checks: seq<nat>, offset: nat)
    requires w.Settled(offset)
    ensures Run(w, checks).Settled(offset)
    ensures Refusals(w, checks, offset) == Min(Checks(checks, offset), w.Budget(offset))
    ensures Run(w, checks).Budget(offset) == w.Budget(offset) - Refusals(w, checks, offset)
  {
    if checks == [] {
    } else {
      var k := |checks| - 1;
      RefusalsExact(w, checks[..k], offset);
      var mid := Run(w, checks[..k]);
      if checks[k] == offset {
        CheckSpendsOne(mid, offset);
      } else {
        CheckFrames(mid, checks[k], offset);
      }
    }
  }

  /** The first of the checks that falls into a block, as a list of at most one. */
  function FirstIn(checks: seq<nat>, base: nat): (f: seq<nat>)
    ensures |f| <= 1
  {
    if checks == [] then []
    else
      var k := |checks| - 1;
      var f := FirstIn(checks[..k], base);
      if f == [] && BlockBase(checks[k]) == base then [checks[k]] else f
  }

  /** What became of the entry of an unknown block, by who was checked first in it. */
  lemma {:induction false} EntryAfter(w: WindowState, checks: seq<nat>, o: nat)
    requires w.record == map[] && !w.Settled(o)
    ensures var v, f := Run(w, checks), FirstIn(checks, o);
      if f == [] then
        v.Untouched(o) && Checks(checks, o) == 0 && Refusals(w, checks, o) == 0
      else if f == [o] then
        v.GetPriority(o) != 0 && v.Budget(o) == 4 - Refusals(w, checks, o) && Refusals(w, checks, o) == Min(Checks(checks, o), 4)
      else
        v.GetPriority(o) != 0 && o in v.record && v.Budget(o) == 0 && Refusals(w, checks, o) == 0
  {
    if checks == [] {
    } else {
      var k := |checks| - 1;
      EntryAfter(w, checks[..k], o);
      EntryStep(Run(w, checks[..k]), checks[k], o);
      CheckSpendsOne(Run(w, checks[..k]), o);
    }
  }

  lemma EntryStep(v: WindowState, x: nat, o: nat)
    requires BlockBase(o) == o
    ensures var u := v.CheckReceived(x, false).0;
      && (v.GetPriority(o) != 0 ==> u.GetPriority(o) != 0)
      && (v.Untouched(o) && BlockBase(x) != o ==> u.Untouched(o))
      && (v.Untouched(o) && BlockBase(x) == o ==>
            u.GetPriority(o) != 0 && o in u.record && u.Budget(o) == if x == o then 3 else 0)
      && (v.GetPriority(o) != 0 && x != o ==> u.Budget(o) == v.Budget(o) && (o in v.record ==> o in u.record))
  {
    BaseOfBase(x);
  }

  lemma BaseOfBase(x: nat)
    ensures BlockBase(BlockBase(x)) == BlockBase(x)
  {
  }

  /** After a start or a `clear_record` the count is exact for an offset if and only if it is not checked
      at all, or it is not the entry of an unknown block, or it is checked before the rest of its block. */
  lemma RefusalsExactIff(w: WindowState, checks: seq<nat>, offset: nat)
    requires w.record == map[]
    ensures Refusals(w, checks, offset) == Min(Checks(checks, offset), w.Budget(offset)) <==>
      w.Settled(offset) || Checks(checks, offset) == 0 || FirstIn(checks, offset) == [offset]
  {
    if w.Settled(offset) {
      RefusalsExact(w, checks, offset);
    } else {
      EntryAfter(w, checks, offset);
    }
  }

  /** The unsettled case is really different: checking any other offset of an unknown block
      first marks the block's own entry as received, so its very first check is accepted. */
  lemma BlockEntryAccepted(offset: nat)
    requires BlockBase(offset) != offset
    ensures var w := WindowState(map[], map[]);
      && w.Budget(BlockBase(offset)) == 4
      && Run(w, [offset]).CheckReceived(BlockBase(offset), false).1
  {
    var w := WindowState(map[], map[]);
    assert BlockBase(BlockBase(offset)) == BlockBase(offset);
    assert Run(w, []) == w && [offset][..0] == [];
  }

  class PktNumWindow {
    var priorityRecord: map<nat, nat>
    var record: map<nat, Condition>

    ghost function Value(): WindowState
      reads this
    {
      WindowState(priorityRecord, record)
    }

    constructor ()
      ensures Value() == WindowState(map[], map[])
    {
      priorityRecord, record := map[], map[];
    }

    method UpdateRetrans(offset: nat, retrans: nat, received: nat)
      modifies this
      ensures Value() == old(Value()).UpdateRetrans(offset, retrans, received)
    {
      record := record[offset := Condition(retrans, received)];
    }

    method AddItem(offset: nat, priority: nat)
      modifies this
      ensures Value() == old(Value()).AddItem(offset, priority)
    {
      if offset % BLOCK == 0 {
        priorityRecord := priorityRecord[offset := priority];
      }
      UpdateRetrans(offset, priority, 1);
    }

    method CheckReceived(offset: nat, sent: bool) returns (answer: bool)
      modifies this
      ensures (Value(), answer) == old(Value()).CheckReceived(offset, sent)
    {
      if !sent {
        if offset in record {
          var condition := record[offset];
          if condition.received == 1 {
            return true;
          } else {
            if condition.retrans > 0 {
              UpdateRetrans(offset, condition.retrans - 1, condition.received);
            } else {
              UpdateRetrans(offset, 0, 1);
            }
            return false;
          }
        } else {
          var base := offset - offset % BLOCK;
          var priority := if base in priorityRecord then priorityRecord[base] else 0;
          if priority == 0 {
            AddItem(base, 3);
            UpdateRetrans(offset, 2, 0);
          } else {
            UpdateRetrans(offset, priority - 1, 0);
          }
          return false;
        }
      } else {
        return offset in record && record[offset].received == 1;
      }
    }

    method ClearRecord()
      modifies this
      ensures Value() == WindowState(old(priorityRecord), map[])
    {
      record := map[];
    }
  }
}
