/** Circular slot arrays, read in ring order.

    The history ring, the link write queue and the client write queue all keep
    `count` live entries in a slot array, starting at `head` and wrapping at its
    end. `View` is that live window as a plain sequence; the methods below are
    the slot updates those three perform, stated on the view. */
module Ring {

  /** The slot holding the i-th live entry. */
  function Slot(slots: nat, head: nat, i: nat): (k: nat)
    requires head < slots && i <= slots
    ensures k < slots
    ensures k == if head + i < slots then head + i else head + i - slots
  {
    Wraps(slots, head, i);
    (head + i) % slots
  }

  lemma {:induction false} Wraps(slots: nat, head: nat, i: nat)
    requires head < slots && i <= slots
    ensures (head + i) % slots == if head + i < slots then head + i else head + i - slots
  {
    if head + i >= slots {
      assert (head + i) % slots == (head + i - slots) % slots;
    }
  }

  class Circular<T> {
    var slots: array<T>
    var head: nat
    var count: nat
    ghost var view: seq<T>

    ghost predicate Valid()
      reads this, slots
    {
      && count == |view| <= slots.Length
      && (if slots.Length == 0 then head == 0 else head < slots.Length)
      && forall i {:trigger Slot(slots.Length, head, i)} ::
           0 <= i < count ==> slots[Slot(slots.Length, head, i)] == view[i]
    }

    /** True of a slot outside the live window. */
    ghost predicate Spare(k: nat)
      requires Valid()
      reads this, slots
    {
      k < slots.Length && forall i: nat :: i < count ==> k != Slot(slots.Length, head, i)
    }

    constructor (capacity: nat, blank: T)
      ensures Valid() && fresh(slots) && view == []
      ensures slots.Length == capacity && forall k :: 0 <= k < capacity ==> slots[k] == blank
    {
      slots := new T[capacity](_ => blank);
      head, count, view := 0, 0, [];
    }

    function At(i: nat): (x: T)
      requires Valid() && i < count
      reads this, slots
      ensures x == view[i]
    {
      slots[Slot(slots.Length, head, i)]
    }

    method SetAt(i: nat, x: T)
      requires Valid() && i < count
      modifies this`view, slots
      ensures Valid() && view == old(view)[i := x]
      ensures forall k: nat :: Spare(k) ==> old(Spare(k)) && slots[k] == old(slots[k])
    {
      slots[Slot(slots.Length, head, i)] := x;
      view := view[i := x];
    }

    method Push(x: T)
      requires Valid() && count < slots.Length
      modifies this`count, this`view, slots
      ensures Valid() && view == old(view) + [x]
      ensures forall k: nat :: Spare(k) ==> old(Spare(k)) && slots[k] == old(slots[k])
    {
      slots[Slot(slots.Length, head, count)] := x;
      count := count + 1;
      view := view + [x];
    }

    /** Drops the front entry, leaving `residue` behind in its slot. */
    method Pop(residue: T)
      requires Valid() && 0 < count
      modifies this`head, this`count, this`view, slots
      ensures Valid() && view == old(view)[1..]
      ensures forall k: nat :: Spare(k) ==> slots[k] == residue || (old(Spare(k)) && slots[k] == old(slots[k]))
    {
      ghost var h := head;
      slots[head] := residue;
      head := Slot(slots.Length, head, 1);
      count := count - 1;
      view := view[1..];
      forall i | 0 <= i < count ensures slots[Slot(slots.Length, head, i)] == view[i] {
        assert Slot(slots.Length, head, i) == Slot(slots.Length, h, i + 1);
      }
      forall k: nat | Spare(k) && k != h ensures old(Spare(k)) {
        forall i: nat | i < old(count) ensures k != Slot(slots.Length, h, i) {
          if i > 0 {
            assert Slot(slots.Length, h, i) == Slot(slots.Length, head, i - 1);
          }
        }
      }
    }

    /** Doubles a full slot array, straightening the ring out. */
    method Grow(initial: nat, blank: T)
      requires Valid() && count == slots.Length && 0 < initial
      modifies this`slots, this`head
      ensures Valid() && fresh(slots) && count < slots.Length
    {
      var bigger := new T[if slots.Length == 0 then initial else slots.Length * 2](_ => blank);
      for i := 0 to count
        invariant forall k :: 0 <= k < i ==> bigger[k] == view[k]
        modifies bigger
      {
        bigger[i] := At(i);
      }
      slots := bigger;
      head := 0;
    }
  }
}
