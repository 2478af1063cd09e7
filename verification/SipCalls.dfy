/** The SIP client's table of call objects. An entry is added when a call is dialled or comes in, with `emplace`, which
    keeps an existing entry, and removed only by a hangup that the library carried out. */
module SipCalls {

  datatype Op =
    | Opened(id: int, call: nat)         // Dial or the incoming-call handler, with a new call object
    | HungUp(id: int, carriedOut: bool)    // Hangup; the library may throw before the entry is erased
    | RemoteEnded(id: int)                 // the far end hung up: the table is not touched

  function Apply(calls: map<int, nat>, op: Op): map<int, nat> {
    match op
    case Opened(id, call) => if id in calls then calls else calls[id := call]
    case HungUp(id, carriedOut) => if carriedOut then calls - {id} else calls
    case RemoteEnded(_) => calls
  }

  function TableAfter(ops: seq<Op>): map<int, nat> {
    if ops == [] then map[] else Apply(TableAfter(ops[..|ops| - 1]), ops[|ops| - 1])
  }

  class Client {
    var calls: map<int, nat>

    constructor ()
      ensures calls == TableAfter([])
    {
      calls := map[];
    }

    method Open(id: int, call: nat)
      modifies this
      ensures calls == Apply(old(calls), Opened(id, call))
    {
      if id !in calls {
        calls := calls[id := call];
      }
    }

    /** The object a hangup is carried out on, if the id is known. */
    method Hangup(id: int, carriedOut: bool) returns (found: bool, call: nat)
      modifies this
      ensures calls == Apply(old(calls), HungUp(id, carriedOut))
      ensures found <==> id in old(calls)
      ensures found ==> call == old(calls)[id]
    {
      found, call := id in calls, 0;
      if found {
        call := calls[id];
        if carriedOut {
          calls := calls - {id};
        }
      }
    }

    /** Answer, BridgeAudio and DialDtmf: the object acted on, or CALL_NOT_FOUND. */
    method Lookup(id: int) returns (found: bool, call: nat)
      ensures found <==> id in calls
      ensures found ==> call == calls[id]
    {
      found, call := id in calls, 0;
      if found {
        call := calls[id];
      }
    }
  }

  /** The last thing that happened to an id was a hangup the library carried out, or nothing did: in particular no
      call with this id was left to the far end to end. */
  predicate Clear(ops: seq<Op>, id: int)
    decreases |ops|
  {
    if ops == [] then true
    else match ops[|ops| - 1]
      case Opened(i, _) => i != id && Clear(ops[..|ops| - 1], id)
      case HungUp(i, true) => i == id || Clear(ops[..|ops| - 1], id)
      case _ => Clear(ops[..|ops| - 1], id)
  }

  lemma {:induction false} KnownUnlessClear(ops: seq<Op>, id: int)
    ensures id in TableAfter(ops) <==> !Clear(ops, id)
  {
    if ops != [] {
      KnownUnlessClear(ops[..|ops| - 1], id);
    }
  }

  /** Call objects are new each time. */
  predicate NewObjects(ops: seq<Op>) {
    forall i, j :: 0 <= i < j < |ops| && ops[i].Opened? && ops[j].Opened? ==> ops[i].call != ops[j].call
  }

  /** Whatever the table holds was put there by an earlier opening. */
  lemma {:induction false} EntryWasOpened(ops: seq<Op>, id: int) returns (j: nat)
    requires id in TableAfter(ops)
    ensures j < |ops| && ops[j] == Opened(id, TableAfter(ops)[id])
  {
    j := |ops| - 1;
    if id in TableAfter(ops[..j]) && TableAfter(ops[..j])[id] == TableAfter(ops)[id] {
      j := EntryWasOpened(ops[..j], id);
    }
  }

  lemma {:induction false} EntryStays(ops: seq<Op>, more: seq<Op>, id: int)
    requires id in TableAfter(ops) && HungUp(id, true) !in more
    ensures id in TableAfter(ops + more) && TableAfter(ops + more)[id] == TableAfter(ops)[id]
  {
    if more == [] {
      assert ops + more == ops;
    } else {
      var init := more[..|more| - 1];
      EntryStays(ops, init, id);
      assert (ops + more)[..|ops + more| - 1] == ops + init;
      assert more[|more| - 1] != HungUp(id, true);
    }
  }

  /** Until it is hung up, a call's id leads to its own object exactly when the id was clear when the call was opened.
      Its id is in the table either way, which is all the gateway checks. */
  lemma LeadsToOwnObject(ops: seq<Op>, id: int, call: nat, more: seq<Op>)
    requires NewObjects(ops + [Opened(id, call)]) && HungUp(id, true) !in more
    ensures var t := TableAfter(ops + [Opened(id, call)] + more);
            id in t && (t[id] == call <==> Clear(ops, id))
  {
    var begun := ops + [Opened(id, call)];
    assert begun[..|ops|] == ops && begun[|ops|] == Opened(id, call);
    KnownUnlessClear(ops, id);
    if !Clear(ops, id) {
      var j := EntryWasOpened(ops, id);
      assert begun[j] == ops[j];
    }
    EntryStays(begun, more, id);
  }

  /** The far end ends a call, the library reuses its id: operations on the new call act on the old object. */
  lemma StaleAfterRemoteEnd(id: int)
    ensures TableAfter([Opened(id, 1), RemoteEnded(id), Opened(id, 2)])[id] == 1
  {
    var ops := [Opened(id, 1), RemoteEnded(id), Opened(id, 2)];
    assert ops[..2] == [Opened(id, 1), RemoteEnded(id)] && ops[..2][..1] == [Opened(id, 1)] && ops[..2][..1][..0] == [];
    assert TableAfter(ops[..2][..1]) == map[id := 1];
    assert TableAfter(ops[..2]) == map[id := 1];
  }
}
