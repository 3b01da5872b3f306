/** Key-value persistence as the two snapshot stores use it: one slot under a
    fixed key, holding data that either decodes to a snapshot or does not. */
module Storage {

  datatype Option<+T> = None | Some(value: T) {
    /** The wrapped value, or `default` when absent (Swift's `??`). */
    function GetOr(default: T): T {
      match this
      case Some(v) => v
      case None => default
    }
  }

  /** What the slot holds: data the decoder accepts, or data it rejects. */
  datatype Payload<T> = Decodable(value: T) | Undecodable

  /** Reading a slot: an empty slot and unreadable data both read as absent. */
  function Decode<T>(slot: Option<Payload<T>>): (r: Option<T>)
    ensures r.Some? <==> slot.Some? && slot.value.Decodable?
    ensures r.Some? ==> r.value == slot.value.value
  {
    match slot
    case Some(Decodable(v)) => Some(v)
    case _ => None
  }

  /** A store with one key. `saveCount` counts writes, as the in-memory
      store of the tests does. */
  class SnapshotStore<T> {
    var stored: Option<Payload<T>>
    var saveCount: nat

    constructor (initial: Option<Payload<T>>)
      ensures stored == initial && saveCount == 0
    {
      stored := initial;
      saveCount := 0;
    }

    /** `load`: absent when nothing is stored and when the stored data does
        not decode; never an error. */
    method Load() returns (r: Option<T>)
      ensures stored.None? ==> r.None?
      ensures stored == Some(Undecodable) ==> r.None?
      ensures stored.Some? && stored.value.Decodable? ==> r == Some(stored.value.value)
    {
      r := Decode(stored);
    }

    /** `save`: overwrites the single key; encoding these records cannot fail. */
    method Save(snapshot: T)
      modifies this
      ensures stored == Some(Decodable(snapshot))
      ensures saveCount == old(saveCount) + 1
    {
      stored := Some(Decodable(snapshot));
      saveCount := saveCount + 1;
    }
  }

  /** A save followed by a load gives back exactly what was saved. */
  lemma SaveThenLoad<T>(snapshot: T)
    ensures Decode(Some(Decodable(snapshot))) == Some(snapshot)
  {
  }
}
