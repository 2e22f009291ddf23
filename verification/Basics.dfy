/** Options, machine integers, bytes, clocks, and filtering a vector in place. */
module Basics {
  datatype Option<+T> = None | Some(value: T)

  const U64_MAX: nat := 0xFFFF_FFFF_FFFF_FFFF

  /** The time passed since an instant, and nothing before it. */
  function Age(since: nat, now: nat): nat { if now < since then 0 else now - since }

  type Byte = b: int | 0 <= b < 256
  type Bytes = seq<Byte>

  function Retain<T>(l: seq<T>, keep: T -> bool): seq<T> {
    if l == [] then []
    else (if keep(l[0]) then [l[0]] else []) + Retain(l[1..], keep)
  }

  lemma {:induction false} RetainMembers<T>(l: seq<T>, keep: T -> bool)
    ensures forall e :: e in Retain(l, keep) <==> e in l && keep(e)
    ensures |Retain(l, keep)| <= |l|
  {
    if l != [] { RetainMembers(l[1..], keep); assert l == [l[0]] + l[1..]; }
  }

  lemma {:induction false} RetainAppend<T>(l: seq<T>, o: T, keep: T -> bool)
    ensures Retain(l + [o], keep) == Retain(l, keep) + (if keep(o) then [o] else [])
  {
    if l == [] {
      assert l + [o] == [o];
    } else {
      assert (l + [o])[1..] == l[1..] + [o];
      RetainAppend(l[1..], o, keep);
    }
  }

  lemma {:induction false} RetainAll<T>(l: seq<T>, keep: T -> bool)
    requires forall e | e in l :: keep(e)
    ensures Retain(l, keep) == l
  {
    if l != [] { RetainAll(l[1..], keep); }
  }
}
