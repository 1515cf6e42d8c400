/** Tags of the distributed deadlock detection (deps/d4r/D4RTag.h, deps/d4r/uint128_t.h). */
module D4RTag {
  import opened Common

  /** A pair of machine words ordered lexicographically, high word first. */
  datatype U128 = U128(high: nat, low: nat) {
    predicate Lt(o: U128) {
      if high == o.high then low < o.low else high < o.high
    }
    predicate Le(o: U128) {
      !o.Lt(this)
    }
  }

  /** The label is (count, key); the priority is (queue size, key of the node blocked on the queue). */
  datatype Tag = Tag(lbl: U128, priority: U128) {
    predicate Lt(t: Tag) {
      if lbl == t.lbl then t.priority.Lt(priority) else lbl.Lt(t.lbl)
    }
  }

  /** A queue size as the unsigned 64-bit word it is stored in: -1 becomes the largest word. */
  function QueueWord(qsize: int): nat
    requires -1 <= qsize
  {
    if qsize == -1 then WORD64 - 1 else qsize
  }

  /** The tag a kernel is constructed with. */
  function FreshTag(key: nat): Tag {
    Tag(U128(0, key), U128(WORD64 - 1, key))
  }

  function Min(a: U128, b: U128): U128 {
    if b.Lt(a) then b else a
  }

  /** The smaller-is-better tie break makes `Lt` a strict total order that agrees with `==`. */
  lemma TagOrder(a: Tag, b: Tag, c: Tag)
    ensures !a.Lt(a)
    ensures a.Lt(b) && b.Lt(c) ==> a.Lt(c)
    ensures a.Lt(b) || b.Lt(a) || a == b
    ensures a.Lt(b) ==> !b.Lt(a) && a != b
    ensures a.lbl == b.lbl && a.priority.Lt(b.priority) ==> b.Lt(a)
    ensures a.lbl.Lt(b.lbl) ==> a.Lt(b)
    ensures a.lbl.high < b.lbl.high || (a.lbl.high == b.lbl.high && a.lbl.low < b.lbl.low) ==> a.Lt(b)
  {
  }

  /** A kernel that has not blocked yet is below every tag that a Block has made, and its priority is above that of
      every kernel blocked on a queue with a size. */
  lemma FreshIsLeast(key: nat, t: Tag)
    requires 0 < t.lbl.high
    ensures FreshTag(key).Lt(t)
    ensures t.priority.high < QueueWord(-1) ==> t.priority.Lt(FreshTag(key).priority)
  {
  }

  /** Below-or-equal steps around a cycle of tags force all of them to agree. */
  lemma {:induction false} NoRiseMeansEqual(tags: seq<Tag>, i: nat, j: nat)
    requires i <= j < |tags|
    requires forall k :: 0 <= k < |tags| - 1 ==> !tags[k].Lt(tags[k + 1])
    ensures !tags[i].Lt(tags[j])
    decreases j - i
  {
    if i < j {
      NoRiseMeansEqual(tags, i + 1, j);
      TagOrder(tags[i], tags[j], tags[i + 1]);
      TagOrder(tags[i + 1], tags[i], tags[j]);
    }
  }
}
