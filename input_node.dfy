/**
 * `InputNode`: a cell of a processing block. It holds the last value put into
 * it and the id under which it reports to its observer; every `Put` tells
 * the observer, by id, that the value changed.
 *
 * The observer's own reaction is not part of this model: an `Observer` only
 * records, in a ghost log, the ids it was notified with.
 */
module InputNodes {
  /** A C++ `int` (32 bits). */
  type Int32 = x: int | -0x8000_0000 <= x < 0x8000_0000

  /** The receiving end of `observer->Notify(id)`. */
  class Observer {
    /** The ids this observer was notified with, oldest first. */
    ghost var received: seq<string>

    constructor ()
      ensures received == []
    {
      received := [];
    }

    /** Records one notification. */
    method Notify(id: string)
      modifies this
      ensures received == old(received) + [id]
    {
      received := received + [id];
    }
  }

  class InputNode {
    var valueBuf: Int32
    var stringID: string
    /** The observer every notification goes to; `Put` and `Notify` need one. */
    var observer: Observer?

    constructor (observer: Observer?, stringID: string, value: Int32)
      ensures this.observer == observer && this.stringID == stringID && valueBuf == value
    {
      this.observer := observer;
      this.stringID := stringID;
      valueBuf := value;
    }

    /** inputnode.cpp lines 3-6: stores the value, then notifies the observer once with the current id. */
    method Put(value: Int32)
      requires observer != null
      modifies this, observer
      ensures valueBuf == value
      ensures stringID == old(stringID) && observer == old(observer)
      ensures observer.received == old(observer.received) + [stringID]
    {
      valueBuf := value;
      Notify();
    }

    /** inputnode.cpp lines 8-10: the last value put, with no change of state. */
    method Get() returns (value: Int32)
      ensures value == valueBuf
    {
      return valueBuf;
    }

    /** inputnode.cpp lines 12-15: replaces the id; the value is kept and nobody is notified. */
    method SetStringID(value: string)
      modifies this
      ensures stringID == value
      ensures valueBuf == old(valueBuf) && observer == old(observer)
    {
      stringID := value;
    }

    /** inputnode.cpp lines 17-20: the current id, with no change of state. */
    method GetStringID() returns (id: string)
      ensures id == stringID
    {
      return stringID;
    }

    /** inputnode.cpp lines 22-25: passes the current id to the observer. */
    method Notify()
      requires observer != null
      modifies observer
      ensures observer.received == old(observer.received) + [stringID]
    {
      observer.Notify(stringID);
    }
  }

  /**
   * A `Put` followed by a `Get` returns the value put, and the observer hears
   * the node's id exactly once; `SetStringID` followed by `GetStringID`
   * returns the new id and notifies nobody.
   */
  method PutGetRoundTrip(node: InputNode, v: Int32, id: string) returns (got: Int32, gotID: string)
    requires node.observer != null
    modifies node, node.observer
    ensures got == v && gotID == id && node.observer == old(node.observer)
    ensures node.observer.received == old(node.observer.received) + [old(node.stringID)]
  {
    node.Put(v);
    got := node.Get();
    node.SetStringID(id);
    gotID := node.GetStringID();
  }
}
