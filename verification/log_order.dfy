/** Ordering of weight logs by `recorded_at`, as Python's stable sort
    orders them (`logs.sort(key=...)` in dashboard.py, `sorted(..., key=...)`
    in weight_logs.py), and the cutoff filter that follows it. */
module LogOrder {
  import opened Records
  import opened Seqs

  /** Ascending by timestamp. */
  predicate Sorted(s: seq<Log>) {
    forall i, j :: 0 <= i < j < |s| ==> s[i].recordedAt <= s[j].recordedAt
  }

  /** Place `x` after every element of `r` whose timestamp is not later
      than its own: inserting the input's elements in input order keeps
      equal timestamps in input order, which is what makes the sort stable. */
  function InsertByTime(r: seq<Log>, x: Log): (q: seq<Log>)
    ensures |q| == |r| + 1
  {
    if r == [] then [x]
    else if r[|r| - 1].recordedAt <= x.recordedAt then r + [x]
    else InsertByTime(r[..|r| - 1], x) + [r[|r| - 1]]
  }

  /** The stable sort by timestamp: each element in turn inserted into the
      sorted prefix before it (insertion sort). */
  function SortByTime(s: seq<Log>): (r: seq<Log>)
    ensures |r| == |s|
  {
    if s == [] then [] else InsertByTime(SortByTime(s[..|s| - 1]), s[|s| - 1])
  }

  /** The logs at or after `cutoff`:
      `[l for l in logs if l["recorded_at"] >= cutoff]`. */
  function KeepSince(logs: seq<Log>, cutoff: int): (r: seq<Log>)
  {
    Filter((l: Log) => l.recordedAt >= cutoff, logs)
  }

  /** The logs recorded at exactly `t`, in their order. */
  function AtTime(logs: seq<Log>, t: int): (r: seq<Log>)
    ensures |r| <= |logs|
  {
    if logs == [] then []
    else AtTime(logs[..|logs| - 1], t) + Tie(logs[|logs| - 1], t)
  }

  /** `[l]` when `l` was recorded at `t`, else nothing. */
  function Tie(l: Log, t: int): seq<Log> {
    if l.recordedAt == t then [l] else []
  }

  /** Where `x` lands: before the first element later than it. */
  lemma {:induction false} InsertAt(r: seq<Log>, x: Log, j: int)
    requires 0 <= j <= |r|
    requires forall k :: 0 <= k < j ==> r[k].recordedAt <= x.recordedAt
    requires forall k :: j <= k < |r| ==> r[k].recordedAt > x.recordedAt
    ensures InsertByTime(r, x) == r[..j] + [x] + r[j..]
  {
    if r == [] {
    } else if r[|r| - 1].recordedAt <= x.recordedAt {
      assert j == |r|;
      assert r[..j] == r && r[j..] == [];
    } else {
      var front := r[..|r| - 1];
      InsertAt(front, x, j);
      assert front[..j] == r[..j];
      assert front[j..] + [r[|r| - 1]] == r[j..];
    }
  }

  lemma {:induction false} InsertSorted(r: seq<Log>, x: Log)
    requires Sorted(r)
    ensures Sorted(InsertByTime(r, x))
  {
    var j := 0;
    while j < |r| && r[j].recordedAt <= x.recordedAt
      invariant 0 <= j <= |r|
      invariant forall k :: 0 <= k < j ==> r[k].recordedAt <= x.recordedAt
    {
      j := j + 1;
    }
    InsertAt(r, x, j);
    var q := r[..j] + [x] + r[j..];
    forall a, b | 0 <= a < b < |q|
      ensures q[a].recordedAt <= q[b].recordedAt
    {
      if b == j {
        assert q[a] == r[a];
      } else if a == j {
        assert q[b] == r[b - 1];
      } else {
        var ra := if a < j then a else a - 1;
        var rb := if b < j then b else b - 1;
        assert q[a] == r[ra] && q[b] == r[rb];
      }
    }
  }

  lemma {:induction false} InsertMultiset(r: seq<Log>, x: Log)
    ensures multiset(InsertByTime(r, x)) == multiset(r) + multiset{x}
  {
    if r != [] && r[|r| - 1].recordedAt > x.recordedAt {
      InsertMultiset(r[..|r| - 1], x);
      assert r == r[..|r| - 1] + [r[|r| - 1]];
    }
  }

  /** For every timestamp, the entries at that timestamp keep their order. */
  lemma {:induction false} InsertKeepsTies(r: seq<Log>, x: Log, t: int)
    ensures AtTime(InsertByTime(r, x), t) == AtTime(r, t) + Tie(x, t)
  {
    if r == [] {
      assert [x][..0] == [];
    } else if r[|r| - 1].recordedAt <= x.recordedAt {
      assert (r + [x])[..|r|] == r;
    } else {
      var front, last := r[..|r| - 1], r[|r| - 1];
      var q := InsertByTime(front, x);
      InsertKeepsTies(front, x, t);
      assert (q + [last])[..|q|] == q;
      assert Tie(last, t) == [] || Tie(x, t) == [];
    }
  }

  /** The sort is ascending by timestamp. */
  lemma {:induction false} SortByTimeSorted(s: seq<Log>)
    ensures Sorted(SortByTime(s))
  {
    if s != [] {
      SortByTimeSorted(s[..|s| - 1]);
      InsertSorted(SortByTime(s[..|s| - 1]), s[|s| - 1]);
    }
  }

  /** The sort is a permutation of its input. */
  lemma {:induction false} SortByTimePermutes(s: seq<Log>)
    ensures multiset(SortByTime(s)) == multiset(s)
    ensures |SortByTime(s)| == |s|
  {
    if s != [] {
      var front, last := s[..|s| - 1], s[|s| - 1];
      SortByTimePermutes(front);
      InsertMultiset(SortByTime(front), last);
      assert s == front + [last];
      assert multiset(s) == multiset(front) + multiset{last};
    }
  }

  /** The sort is stable: logs with equal timestamps stay in input order. */
  lemma {:induction false} SortByTimeStable(s: seq<Log>, t: int)
    ensures AtTime(SortByTime(s), t) == AtTime(s, t)
  {
    if s != [] {
      var front, last := s[..|s| - 1], s[|s| - 1];
      SortByTimeStable(front, t);
      InsertKeepsTies(SortByTime(front), last, t);
    }
  }

  /** `KeepSince` keeps exactly the logs at or after the cutoff, each as
      many times as it occurs. */
  lemma KeepSinceExactly(logs: seq<Log>, cutoff: int)
    ensures forall l :: l in KeepSince(logs, cutoff) <==> l in logs && l.recordedAt >= cutoff
    ensures forall l :: multiset(KeepSince(logs, cutoff))[l] ==
                          if l.recordedAt >= cutoff then multiset(logs)[l] else 0
    ensures multiset(KeepSince(logs, cutoff)) <= multiset(logs)
  {
    var p := (l: Log) => l.recordedAt >= cutoff;
    forall l | l in logs && l.recordedAt >= cutoff
      ensures l in KeepSince(logs, cutoff)
    {
      FilterComplete(p, logs, l);
    }
    forall l
      ensures multiset(KeepSince(logs, cutoff))[l] == if l.recordedAt >= cutoff then multiset(logs)[l] else 0
    {
      FilterCount(p, logs, l);
    }
    FilterSubMultiset(p, logs);
  }

  /** Filtering a sorted sequence leaves it sorted. */
  lemma {:induction false} KeepSinceSorted(logs: seq<Log>, cutoff: int)
    requires Sorted(logs)
    ensures Sorted(KeepSince(logs, cutoff))
  {
    if logs != [] {
      KeepSinceSorted(logs[1..], cutoff);
      var rest := KeepSince(logs[1..], cutoff);
      forall l | l in rest ensures logs[0].recordedAt <= l.recordedAt {
        var k :| 0 <= k < |logs[1..]| && logs[1..][k] == l;
        assert logs[k + 1] == l;
      }
    }
  }
}
