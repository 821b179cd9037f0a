/** The ring through which analyzer threads poke the main thread. */
module PokeRing {

  /** The most values a ring of `size` slots holds: one slot is the last one read, and one stays free. */
  function Capacity(size: nat): int {
    size - 2
  }

  /** `Ring` over `RingLogic`: the slot at `rx` was read last, the slot at `wx` is written next. */
  class Ring<T(0)> {
    const sz: nat
    const store: array<T>
    var rx: nat
    var wx: nat

    ghost predicate Valid()
      reads this
    {
      sz >= 2 && store.Length == sz && rx < sz && wx < sz && rx != wx
    }

    function Next(ix: nat): nat {
      if ix + 1 < sz then ix + 1 else 0
    }

    /** The number of values waiting, as `count` computes it. */
    function Size(): (n: int)
      reads this
    {
      var c := (wx as int) - rx - 1;
      if c < 0 then c + sz else c
    }

    /** The values waiting, oldest first. */
    ghost function Contents(): (s: seq<T>)
      requires Valid()
      reads this, store
      ensures |s| == Size() <= Capacity(sz)
    {
      if rx < wx then store[rx + 1..wx] else store[rx + 1..] + store[..wx]
    }

    /** With fewer than two slots the write index would start outside the store. */
    constructor (size: nat)
      requires size >= 2
      ensures Valid() && sz == size && fresh(store)
      ensures Contents() == []
    {
      sz := size;
      store := new T[size];
      rx, wx := 0, 1;
    }

    /** Takes the oldest value, or gives back `v` when nothing waits. */
    method Get(v: T) returns (r: T)
      requires Valid()
      modifies this
      ensures Valid()
      ensures if old(Contents()) == [] then r == v && Contents() == []
              else r == old(Contents())[0] && Contents() == old(Contents())[1..]
    {
      var nx := Next(rx);
      if nx == wx {
        return v;
      }
      r := store[nx];
      ghost var waiting := Contents();
      rx := nx;
      assert waiting == [r] + Contents();
    }

    /** Appends a value unless as many wait as the ring holds. */
    method Put(v: T) returns (ok: bool)
      requires Valid()
      modifies this, store
      ensures Valid()
      ensures ok <==> |old(Contents())| < Capacity(sz)
      ensures Contents() == if ok then old(Contents()) + [v] else old(Contents())
    {
      var nx := Next(wx);
      if nx == rx {
        return false;
      }
      store[wx] := v;
      wx := nx;
      ok := true;
    }

    /** `full` compares the count with the size, which it never reaches. */
    lemma NeverFull()
      requires Valid()
      ensures Size() != sz
    {
      assert |Contents()| == Size();
    }
  }
}
