/**
 * The client's code over the pending-call table: one method for each stretch of `call`, `readLoop`
 * and `closePending` that runs without interruption. Each refines one step of `RpcCalls`, so the
 * preconditions of the channel operations below are the proof that none of them panics or blocks.
 */
module RpcClient {
  import opened Sets
  import opened RpcCalls

  /** A Go channel of capacity one. Sending on or closing a closed channel panics; a full one blocks. */
  class Chan {
    const owner: int
    const handle: nat
    var buffer: seq<Response>
    var closed: bool
    ghost var sends: nat
    ghost var closes: nat

    constructor (owner: int, handle: nat)
      ensures this.owner == owner && this.handle == handle
      ensures State() == Channel(owner, [], false, 0, 0)
    {
      this.owner, this.handle := owner, handle;
      buffer, closed := [], false;
      sends, closes := 0, 0;
    }

    ghost function State(): Channel
      reads this
    {
      Channel(owner, buffer, closed, sends, closes)
    }

    method SendValue(response: Response)
      requires !closed && buffer == []
      modifies this
      ensures State() == old(State()).(buffer := old(buffer) + [response], sends := old(sends) + 1)
    {
      buffer := buffer + [response];
      sends := sends + 1;
    }

    method CloseIt()
      requires !closed
      modifies this
      ensures State() == CloseChannel(old(State()))
    {
      closed := true;
      closes := closes + 1;
    }

    /** A receive that does not block: a buffered response, or word that the channel is closed. */
    method ReceiveValue() returns (outcome: Outcome)
      requires buffer != [] || closed
      modifies this
      ensures State() == old(State()).(buffer := if old(buffer) == [] then [] else old(buffer)[1..])
      ensures outcome == if old(buffer) == [] then ConnectionClosed else Answered(old(buffer)[0])
    {
      if buffer == [] {
        return ConnectionClosed;
      }
      outcome := Answered(buffer[0]);
      buffer := buffer[1..];
    }
  }

  class Client {
    var nextId: nat
    var pending: map<int, Chan>
    var chans: seq<Chan>        // every channel made so far
    var calls: map<int, Call>   // the callers' own variables
    var reader: ReaderState     // the reader's own variables

    ghost predicate Valid()
      reads this, chans
    {
      && (forall i :: 0 <= i < |chans| ==> chans[i].handle == i)
      && (forall id <- pending :: pending[id] in chans)
      && Inv(View())
    }

    /** The table as the state machine sees it. */
    ghost function View(): Table
      reads this, chans
    {
      Table(nextId, map id | id in pending :: pending[id].handle,
            seq(|chans|, i requires 0 <= i < |chans| reads this, chans => chans[i].State()),
            calls, reader, false)
    }

    lemma PendingChan(id: int)
      requires Valid() && id in pending
      ensures pending[id].handle < |chans| && chans[pending[id].handle] == pending[id]
      ensures Untouched(pending[id].State()) && pending[id].owner == id
    {
      assert PendingInv(View(), id) && CallInv(View(), id, calls[id]);
    }

    constructor ()
      ensures Valid() && View() == INITIAL && chans == []
    {
      nextId, pending, chans, calls, reader := 0, map[], [], map[], Idle;
    }

    method NumberCall() returns (id: int)
      requires Valid()
      modifies this
      ensures Valid() && View() == Apply(old(View()), Number)
      ensures old(chans) <= chans && fresh(chans[|old(chans)|])
      ensures id == nextId
    {
      NumberKeepsInv(View());
      nextId := nextId + 1;
      id := nextId;
      var ch := new Chan(id, |chans|);
      calls := calls[id := Numbered(|chans|)];
      chans := chans + [ch];
      assert View() == Apply(old(View()), Number);
    }

    method RegisterCall(id: int)
      requires Valid() && Enabled(View(), Register(id))
      modifies this
      ensures Valid() && View() == Apply(old(View()), Register(id)) && chans == old(chans)
    {
      ApplyKeepsInv(View(), Register(id));
      assert CallInv(View(), id, calls[id]);
      var ch := calls[id].ch;
      pending := pending[id := chans[ch]];
      calls := calls[id := Registered(ch)];
      assert View() == Apply(old(View()), Register(id));
    }

    /** The write itself is the sink's affair; the caller goes on by its result. */
    method WriteRequest(id: int, ok: bool)
      requires Valid() && Enabled(View(), Write(id, ok))
      modifies this
      ensures Valid() && View() == Apply(old(View()), Write(id, ok)) && chans == old(chans)
    {
      ApplyKeepsInv(View(), Write(id, ok));
      calls := calls[id := if ok then Waiting(calls[id].ch) else Failing(calls[id].ch)];
      assert View() == Apply(old(View()), Write(id, ok));
    }

    method DropCall(id: int)
      requires Valid() && Enabled(View(), Drop(id))
      modifies this
      ensures Valid() && View() == Apply(old(View()), Drop(id)) && chans == old(chans)
    {
      ApplyKeepsInv(View(), Drop(id));
      pending := pending - {id};
      calls := calls[id := Done(calls[id].ch, WriteError)];
      assert View() == Apply(old(View()), Drop(id));
    }

    method ReceiveAnswer(id: int) returns (outcome: Outcome)
      requires Valid() && Enabled(View(), Receive(id))
      modifies this, chans
      ensures Valid() && View() == Apply(old(View()), Receive(id)) && chans == old(chans)
      ensures calls[id].Done? && calls[id].outcome == outcome
    {
      ApplyKeepsInv(View(), Receive(id));
      var ch := calls[id].ch;
      outcome := chans[ch].ReceiveValue();
      calls := calls[id := Done(ch, outcome)];
      assert View() == Apply(old(View()), Receive(id));
    }

    /** The reader's critical section for a response. */
    method TakeResponse(response: Response)
      requires Valid() && reader.Idle?
      modifies this
      ensures Valid() && View() == Apply(old(View()), Take(response)) && chans == old(chans)
    {
      ApplyKeepsInv(View(), Take(response));
      if response.id in pending {
        reader := Holding(pending[response.id].handle, response);
        pending := pending - {response.id};
      }
      assert View() == Apply(old(View()), Take(response));
    }

    method SendHeld()
      requires Valid() && reader.Holding?
      modifies this, chans
      ensures Valid() && View() == Apply(old(View()), Send) && chans == old(chans)
    {
      ApplyKeepsInv(View(), Send);
      var ch := reader.ch;
      assert forall i | 0 <= i < |chans| && i != ch :: chans[i] != chans[ch];
      chans[ch].SendValue(reader.response);
      reader := Closing(ch);
      assert View().channels == Apply(old(View()), Send).channels;
    }

    method CloseServed()
      requires Valid() && reader.Closing?
      modifies this, chans
      ensures Valid() && View() == Apply(old(View()), Close) && chans == old(chans)
    {
      ApplyKeepsInv(View(), Close);
      chans[reader.ch].CloseIt();
      reader := Idle;
      assert View() == Apply(old(View()), Close);
    }

    /** Whether channel `i` is the one entered for its owner. */
    ghost predicate Entered(i: nat)
      requires i < |chans|
      reads this
    {
      chans[i].owner in pending && pending[chans[i].owner] == chans[i]
    }

    ghost predicate EntriesOpen()
      reads this, chans
    {
      && (forall i :: 0 <= i < |chans| ==> chans[i].handle == i)
      && forall id <- pending :: pending[id] in chans && !pending[id].closed && pending[id].owner == id
    }

    /** The loop of closePending; Go visits the entries in any order. */
    method CloseEntries()
      requires EntriesOpen()
      modifies this`pending, chans
      ensures pending == map[]
      ensures forall i :: 0 <= i < |chans| ==>
        (chans[i].State() == if old(Entered(i)) then CloseChannel(old(chans[i].State())) else old(chans[i].State()))
    {
      var left := pending.Keys;
      while left != {}
        invariant left == pending.Keys && left <= old(pending).Keys && EntriesOpen()
        invariant forall id <- pending :: pending[id] == old(pending[id])
        invariant forall i :: 0 <= i < |chans| ==>
          (chans[i].State() == if old(Entered(i)) && !Entered(i) then CloseChannel(old(chans[i].State()))
                              else old(chans[i].State()))
        decreases left
      {
        var id := AnyOf(left);
        var ch := pending[id];
        pending, left := pending - {id}, left - {id};
        ch.CloseIt();
      }
    }

    method ClosePending()
      requires Valid() && reader.Idle?
      modifies this, chans
      ensures Valid() && View() == Apply(old(View()), Stop) && chans == old(chans)
    {
      ghost var t := View();
      StopKeepsInv(t);
      forall id | id in pending ensures !pending[id].closed && pending[id].owner == id {
        PendingChan(id);
      }
      forall i | 0 <= i < |chans| ensures Entered(i) <==> InTable(t.pending, i) {
        if InTable(t.pending, i) {
          PendingChannels(t, i);
          PendingChan(chans[i].owner);
        }
        assert Entered(i) ==> t.pending[chans[i].owner] == i;
      }
      CloseEntries();
      reader := Stopped;
      assert View().channels == Apply(t, Stop).channels;
    }
  }
}
