/** A remote buffer: its bytes, the ranges written so far, and when it is READY. */
module RemoteBuffer {
  datatype Range = Range(start: nat, end: nat)
  type Ranges = seq<Range>

  predicate Within(r: Range, at: nat) { r.start <= at < r.end }

  predicate Written(rs: Ranges, at: nat) { exists i :: 0 <= i < |rs| && Within(rs[i], at) }

  /** Non-empty, in order, and with a gap between neighbours. */
  predicate Merged(rs: Ranges) {
    && (forall i | 0 <= i < |rs| :: rs[i].start < rs[i].end)
    && (forall i | 0 <= i < |rs| - 1 :: rs[i].end < rs[i + 1].start)
  }

  predicate Sorted(rs: Ranges) { forall i, j | 0 <= i < j < |rs| :: rs[i].start <= rs[j].start }

  lemma {:induction false} MergedIncreases(rs: Ranges, i: nat, j: nat)
    requires Merged(rs) && i < j < |rs|
    ensures rs[i].end < rs[j].start
    decreases j - i
  {
    if i + 1 < j { MergedIncreases(rs, i, j - 1); }
  }

  lemma WrittenAppend(rs: Ranges, r: Range, at: nat)
    ensures Written(rs + [r], at) <==> Written(rs, at) || Within(r, at)
  {
    if Written(rs, at) {
      var i :| 0 <= i < |rs| && Within(rs[i], at);
      assert (rs + [r])[i] == rs[i];
    }
    assert (rs + [r])[|rs|] == r;
  }

  /** Extending the last range to take in `r`. */
  lemma WrittenExtend(rs: Ranges, r: Range, at: nat)
    requires rs != [] && r.start < r.end && rs[|rs| - 1].start <= r.start <= rs[|rs| - 1].end
    requires rs[|rs| - 1].start < rs[|rs| - 1].end
    ensures var last := rs[|rs| - 1];
            var wide := Range(last.start, if last.end < r.end then r.end else last.end);
            Written(rs[|rs| - 1 := wide], at) <==> Written(rs, at) || Within(r, at)
  {
    var last := rs[|rs| - 1];
    var wide := Range(last.start, if last.end < r.end then r.end else last.end);
    assert rs == rs[..|rs| - 1] + [last];
    assert rs[|rs| - 1 := wide] == rs[..|rs| - 1] + [wide];
    WrittenAppend(rs[..|rs| - 1], last, at);
    WrittenAppend(rs[..|rs| - 1], wide, at);
  }

  /** `whole` covers what `part` covers, and `r`. */
  ghost predicate Union(whole: Ranges, part: Ranges, r: Range) {
    forall at: nat :: Written(whole, at) <==> Written(part, at) || Within(r, at)
  }

  ghost predicate SameCover(a: Ranges, b: Ranges) {
    forall at: nat :: Written(a, at) <==> Written(b, at)
  }

  lemma InsertSorts(rs: Ranges, r: Range, i: nat)
    requires Sorted(rs) && i <= |rs|
    requires forall j | 0 <= j < i :: rs[j].start <= r.start
    requires i < |rs| ==> r.start < rs[i].start
    ensures Sorted(rs[..i] + [r] + rs[i..])
  {
    var out := rs[..i] + [r] + rs[i..];
    forall j | 0 <= j < |out| ensures out[j] == if j < i then rs[j] else if j == i then r else rs[j - 1] {}
  }

  lemma InsertMembers(rs: Ranges, r: Range, i: nat)
    requires i <= |rs|
    ensures multiset(rs[..i] + [r] + rs[i..]) == multiset(rs) + multiset{r}
    ensures forall x | x in rs[..i] + [r] + rs[i..] :: x == r || x in rs
  {
    assert rs == rs[..i] + rs[i..];
  }

  /** The list with the new range in its place: the source pushes and sorts by start. */
  method InsertSorted(rs: Ranges, r: Range) returns (out: Ranges)
    requires Sorted(rs)
    ensures Sorted(out) && multiset(out) == multiset(rs) + multiset{r}
    ensures forall x | x in out :: x == r || x in rs
    ensures Union(out, rs, r)
  {
    var i := 0;
    while i < |rs| && rs[i].start <= r.start
      invariant 0 <= i <= |rs|
      invariant forall j | 0 <= j < i :: rs[j].start <= r.start
    {
      i := i + 1;
    }
    out := rs[..i] + [r] + rs[i..];
    InsertSorts(rs, r, i);
    InsertMembers(rs, r, i);
    InsertCovers(rs, r, i);
  }

  lemma InsertCovers(rs: Ranges, r: Range, i: nat)
    requires i <= |rs|
    ensures Union(rs[..i] + [r] + rs[i..], rs, r)
  {
    var out := rs[..i] + [r] + rs[i..];
    forall at: nat ensures Written(out, at) <==> Written(rs, at) || Within(r, at) {
      if Written(rs, at) {
        var j :| 0 <= j < |rs| && Within(rs[j], at);
        assert out[if j < i then j else j + 1] == rs[j];
      }
      if Written(out, at) {
        var j :| 0 <= j < |out| && Within(out[j], at);
        assert out[j] == if j < i then rs[j] else if j == i then r else rs[j - 1];
      }
      assert out[i] == r;
    }
  }

  /** One step of the sweep: extend the last range or start another. */
  function Absorb(merged: Ranges, r: Range): Ranges {
    if merged != [] && r.start <= merged[|merged| - 1].end then
      var last := merged[|merged| - 1];
      merged[|merged| - 1 := Range(last.start, if last.end < r.end then r.end else last.end)]
    else merged + [r]
  }

  lemma AbsorbKeeps(merged: Ranges, r: Range)
    requires Merged(merged) && r.start < r.end
    requires merged != [] ==> merged[|merged| - 1].start <= r.start
    ensures Merged(Absorb(merged, r)) && Union(Absorb(merged, r), merged, r)
    ensures Absorb(merged, r) != [] && Absorb(merged, r)[|Absorb(merged, r)| - 1].start <= r.start
  {
    forall at: nat ensures Written(Absorb(merged, r), at) <==> Written(merged, at) || Within(r, at) {
      if merged != [] && r.start <= merged[|merged| - 1].end {
        WrittenExtend(merged, r, at);
      } else {
        WrittenAppend(merged, r, at);
      }
    }
  }

  lemma CoverStep(merged: Ranges, merged': Ranges, prefix: Ranges, r: Range)
    requires SameCover(merged, prefix) && Union(merged', merged, r)
    ensures SameCover(merged', prefix + [r])
  {
    forall at: nat ensures Written(merged', at) <==> Written(prefix + [r], at) {
      WrittenAppend(prefix, r, at);
    }
  }

  /** Merging a written range keeps the list canonical and covers exactly the union. */
  method MergeRange(ranges: Ranges, new_: Range) returns (merged: Ranges)
    requires Merged(ranges) && new_.start < new_.end
    ensures Merged(merged) && Union(merged, ranges, new_)
  {
    forall i, j | 0 <= i < j < |ranges| ensures ranges[i].start <= ranges[j].start {
      MergedIncreases(ranges, i, j);
    }
    var sorted := InsertSorted(ranges, new_);
    assert forall x | x in sorted :: x.start < x.end;
    merged := [];
    for i := 0 to |sorted|
      invariant Merged(merged) && SameCover(merged, sorted[..i])
      invariant merged != [] && i < |sorted| ==> merged[|merged| - 1].start <= sorted[i].start
    {
      AbsorbKeeps(merged, sorted[i]);
      CoverStep(merged, Absorb(merged, sorted[i]), sorted[..i], sorted[i]);
      assert sorted[..i + 1] == sorted[..i] + [sorted[i]];
      merged := Absorb(merged, sorted[i]);
    }
    assert sorted[..|sorted|] == sorted;
  }

  /** The list the worker compares with is [(0, size)] exactly when every byte of the
      buffer, and nothing beyond it, was written. */
  lemma ReadyIffComplete(rs: Ranges, size: nat)
    requires Merged(rs) && size > 0
    ensures rs == [Range(0, size)] <==> (forall at: nat :: Written(rs, at) <==> at < size)
  {
    if rs == [Range(0, size)] {
      forall at: nat ensures Written(rs, at) <==> at < size {
        assert Within(rs[0], at) <==> at < size;
      }
    } else if forall at: nat :: Written(rs, at) <==> at < size {
      assert Written(rs, 0);
      var i :| 0 <= i < |rs| && Within(rs[i], 0);
      if i > 0 { MergedIncreases(rs, 0, i); }
      assert Within(rs[0], rs[0].end - 1);
      assert Written(rs, rs[0].end - 1);
      assert rs[0].end <= size;
      if rs[0].end < size {
        assert Written(rs, rs[0].end);
        var j :| 0 <= j < |rs| && Within(rs[j], rs[0].end);
        MergedIncreases(rs, 0, j);
      }
      if |rs| > 1 {
        assert Within(rs[1], rs[1].start);
        assert Written(rs, rs[1].start);
      }
    }
  }
}
