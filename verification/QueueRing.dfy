/** The storage ring of queue.c, in bytes, and the double-ended queue it represents. */
module QueueRing {
  import opened Circular

  type byte = bv8

  datatype Position = Back | Front | Overwrite

  /** Where slot k begins. */
  function Offset(k: nat, size: nat): nat {
    if k == 0 then 0 else Offset(k - 1, size) + size
  }

  lemma {:induction false} OffsetIsProduct(k: nat, size: nat)
    ensures Offset(k, size) == k * size
  {
    if k > 0 {
      OffsetIsProduct(k - 1, size);
      assert k * size == (k - 1) * size + size;
    }
  }

  /** A lower slot ends before a higher one begins. */
  lemma {:induction false} SlotsApart(j: nat, k: nat, size: nat)
    requires j < k
    ensures Offset(j, size) + size <= Offset(k, size)
    decreases k
  {
    if j + 1 < k {
      SlotsApart(j, k - 1, size);
    }
  }

  /** The bytes of one of n slots. */
  ghost function Item(s: seq<byte>, slot: nat, n: nat, size: nat): (r: seq<byte>)
    requires slot < n && |s| == Offset(n, size)
    ensures |r| == size
  {
    SlotsApart(slot, n, size);
    s[Offset(slot, size)..Offset(slot, size) + size]
  }

  /** The bytes as a ring of n items. */
  ghost function Slots(s: seq<byte>, n: nat, size: nat): (r: seq<seq<byte>>)
    requires |s| == Offset(n, size)
    ensures |r| == n && forall j | 0 <= j < n :: r[j] == Item(s, j, n, size)
  {
    seq(n, j requires 0 <= j < n => Item(s, j, n, size))
  }

  lemma WriteSlot(t: seq<byte>, s: seq<byte>, k: nat, item: seq<byte>, n: nat, size: nat)
    requires |t| == |s| == Offset(n, size) && k < n && |item| == size && Offset(k, size) + size <= |s|
    requires forall i | 0 <= i < |t| ::
      t[i] == if Offset(k, size) <= i < Offset(k, size) + size then item[i - Offset(k, size)] else s[i]
    ensures Slots(t, n, size) == Slots(s, n, size)[k := item]
  {
    forall j | 0 <= j < n ensures Item(t, j, n, size) == if j == k then item else Item(s, j, n, size) {
      SlotsApart(j, n, size);
      if j < k {
        SlotsApart(j, k, size);
      } else if k < j {
        SlotsApart(k, j, size);
      }
    }
  }

  /** Writing the slot after the last item puts the new item at the back. */
  lemma BackItem<T>(ring: seq<T>, first: nat, count: nat, x: T)
    requires first <= |ring| && count < |ring|
    ensures Around(ring[Wrap(first + count, |ring|) := x], first, count + 1) == Around(ring, first, count) + [x]
  {
  }

  /** Writing slot k, which may also be counted from the end of the ring, puts the new item in front of the items
      from the next slot on. */
  lemma FrontItem<T>(ring: seq<T>, k: nat, first: nat, count: nat, x: T)
    requires k < |ring| && count < |ring| && (first == k || (k == 0 && first == |ring|))
    ensures Around(ring[k := x], first, count + 1) == [x] + Around(ring, k + 1, count)
  {
  }

  class Queue {
    const length: nat
    const itemSize: nat
    const storage: array<byte>
    var messagesWaiting: nat
    var writeTo: nat            // byte offsets into the storage
    var readFrom: nat
    ghost var writeSlot: nat
    ghost var readSlot: nat

    /** The write index is the read index plus one plus the number of messages, around the ring. */
    ghost predicate Valid()
      reads this, storage
    {
      && 0 < length && 0 < itemSize && storage.Length == Offset(length, itemSize)
      && messagesWaiting <= length && readSlot < length
      && writeTo == Offset(writeSlot, itemSize) && readFrom == Offset(readSlot, itemSize)
      && writeSlot == Wrap(Wrap(readSlot + 1, length) + messagesWaiting, length)
    }

    /** The items from the next one to be read to the last one sent. */
    ghost function Contents(): seq<seq<byte>>
      requires Valid()
      reads this, storage
    {
      Around(Slots(storage[..], length, itemSize), readSlot + 1, messagesWaiting)
    }

    /** prvInitialiseNewQueue and xQueueGenericReset. */
    constructor (queueLength: nat, size: nat)
      requires queueLength > 0 && size > 0
      ensures Valid() && Contents() == [] && fresh(storage) && length == queueLength && itemSize == size
    {
      OffsetIsProduct(queueLength, size);
      OffsetIsProduct(queueLength - 1, size);
      length, itemSize := queueLength, size;
      storage := new byte[queueLength * size];
      messagesWaiting, writeTo, readFrom := 0, 0, (queueLength - 1) * size;
      writeSlot, readSlot := 0, queueLength - 1;
    }

    /** memcpy of one item into the storage. */
    method CopyIn(ghost k: nat, at: nat, item: seq<byte>)
      requires storage.Length == Offset(length, itemSize) && k < length
      requires at == Offset(k, itemSize) && |item| == itemSize
      modifies storage
      ensures Slots(storage[..], length, itemSize) == old(Slots(storage[..], length, itemSize))[k := item]
    {
      SlotsApart(k, length, itemSize);
      forall i | at <= i < at + itemSize {
        storage[i] := item[i - at];
      }
      WriteSlot(storage[..], old(storage[..]), k, item, length, itemSize);
    }

    /** prvCopyDataToQueue, the send-to-back branch. */
    method CopyToBack(item: seq<byte>)
      requires Valid() && |item| == itemSize && messagesWaiting < length
      modifies this, storage
      ensures Valid() && Contents() == old(Contents()) + [item]
    {
      BackItem(Slots(storage[..], length, itemSize), readSlot + 1, messagesWaiting, item);
      CopyIn(writeSlot, writeTo, item);
      StepWrite();
      messagesWaiting := messagesWaiting + 1;
    }

    /** The write position steps on one item. */
    method StepWrite()
      requires 0 < itemSize && storage.Length == Offset(length, itemSize) && writeSlot < length
      requires writeTo == Offset(writeSlot, itemSize)
      modifies `writeTo, `writeSlot
      ensures writeSlot == Wrap(old(writeSlot) + 1, length) && writeTo == Offset(writeSlot, itemSize)
    {
      assert Offset(writeSlot + 1, itemSize) == writeTo + itemSize;
      if writeSlot + 1 < length {
        SlotsApart(writeSlot + 1, length, itemSize);
      }
      writeTo := writeTo + itemSize;
      if writeTo >= storage.Length {
        writeTo := 0;
      }
      writeSlot := Wrap(writeSlot + 1, length);
    }

    /** prvCopyDataToQueue, the send-to-front and overwrite branches. */
    method CopyToFront(item: seq<byte>, overwrite: bool)
      requires Valid() && |item| == itemSize && (if overwrite then length == 1 else messagesWaiting < length)
      modifies this, storage
      ensures Valid() && Contents() == [item] + if overwrite then [] else old(Contents())
    {
      WriteFront(item, if overwrite then 0 else messagesWaiting);
      if overwrite && messagesWaiting > 0 {
        messagesWaiting := messagesWaiting - 1;
      }
      messagesWaiting := messagesWaiting + 1;
    }

    /** The new item goes to the slot last read from, and the read position steps back: the item is in front of the
        count items that were next. */
    method WriteFront(item: seq<byte>, ghost count: nat)
      requires 0 < itemSize && storage.Length == Offset(length, itemSize) && readSlot < length && |item| == itemSize
      requires readFrom == Offset(readSlot, itemSize) && count < length
      modifies `readFrom, `readSlot, storage
      ensures readSlot == (if old(readSlot) == 0 then length - 1 else old(readSlot) - 1)
      ensures readFrom == Offset(readSlot, itemSize)
      ensures Around(Slots(storage[..], length, itemSize), readSlot + 1, count + 1) ==
              [item] + old(Around(Slots(storage[..], length, itemSize), readSlot + 1, count))
    {
      FrontItem(Slots(storage[..], length, itemSize), readSlot, if readSlot == 0 then length else readSlot, count,
                item);
      CopyIn(readSlot, readFrom, item);
      StepBack();
    }

    /** The read position steps back one item. */
    method StepBack()
      requires 0 < itemSize && storage.Length == Offset(length, itemSize) && readSlot < length
      requires readFrom == Offset(readSlot, itemSize)
      modifies `readFrom, `readSlot
      ensures readSlot == (if old(readSlot) == 0 then length - 1 else old(readSlot) - 1)
      ensures readFrom == Offset(readSlot, itemSize)
    {
      var position := readFrom as int - itemSize;
      readSlot := if readSlot == 0 then length - 1 else readSlot - 1;
      if position < 0 {
        position := storage.Length - itemSize;
      }
      readFrom := position;
    }

    /** xQueueGenericSend and xQueueGenericSendFromISR as far as the contents go: full queues refuse. */
    method Send(item: seq<byte>, position: Position) returns (sent: bool)
      requires Valid() && |item| == itemSize && (position.Overwrite? ==> length == 1)
      modifies this, storage
      ensures Valid() && sent == (position.Overwrite? || |old(Contents())| < length)
      ensures Contents() == if !sent then old(Contents()) else
                            match position
                            case Back => old(Contents()) + [item]
                            case Front => [item] + old(Contents())
                            case Overwrite => [item]
    {
      sent := messagesWaiting < length || position.Overwrite?;
      if sent {
        if position.Back? {
          CopyToBack(item);
        } else {
          CopyToFront(item, position.Overwrite?);
        }
      }
    }

    /** prvCopyDataFromQueue: the read position steps to the next item, which is copied out. */
    method CopyFrom() returns (item: seq<byte>)
      requires 0 < itemSize && storage.Length == Offset(length, itemSize) && readSlot < length
      requires readFrom == Offset(readSlot, itemSize)
      modifies `readFrom, `readSlot
      ensures readSlot == Wrap(old(readSlot) + 1, length) && readFrom == Offset(readSlot, itemSize)
      ensures item == Item(storage[..], readSlot, length, itemSize)
    {
      SlotsApart(readSlot, length, itemSize);
      assert Offset(readSlot + 1, itemSize) == readFrom + itemSize;
      readFrom := readFrom + itemSize;
      if readFrom >= storage.Length {
        readFrom := 0;
      }
      if readSlot + 1 < length {
        SlotsApart(readSlot + 1, length, itemSize);
      }
      readSlot := Wrap(readSlot + 1, length);
      SlotsApart(readSlot, length, itemSize);
      item := storage[readFrom..readFrom + itemSize];
    }

    /** xQueueReceive and xQueueReceiveFromISR. */
    method Receive() returns (received: bool, item: seq<byte>)
      requires Valid()
      modifies this
      ensures Valid() && received == (old(Contents()) != [])
      ensures received ==> old(Contents()) == [item] + Contents()
      ensures !received ==> Contents() == old(Contents())
    {
      received, item := messagesWaiting > 0, [];
      if received {
        item := CopyFrom();
        messagesWaiting := messagesWaiting - 1;
      }
    }

    /** xQueuePeek: the read position is put back, so nothing changes. */
    method Peek() returns (received: bool, item: seq<byte>)
      requires Valid()
      modifies this
      ensures Valid() && Contents() == old(Contents()) && received == (Contents() != [])
      ensures received ==> item == Contents()[0]
      ensures readFrom == old(readFrom) && writeTo == old(writeTo)
    {
      received, item := messagesWaiting > 0, [];
      if received {
        var original := readFrom;
        ghost var slot := readSlot;
        item := CopyFrom();
        readFrom, readSlot := original, slot;
      }
    }
  }
}
