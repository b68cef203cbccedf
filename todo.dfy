/** The task record shared by the console list, the chat bot and the report.

    Timestamps and dates are opaque integers (the source stores ISO-8601
    strings). A key missing from the stored record and a key holding null are
    both `None`. The optional fields are read either through `.get`, for which
    the two are the same, or by subscript where both raise (`start_time` and
    `time_spent` when a task is stopped). */
module Todo {

  datatype Option<T> = None | Some(value: T)

  datatype Task = Task(
    text: string,
    created: int,
    completed: Option<int>,
    benched: Option<int>,
    unbenched: Option<int>,
    // `in_progress`; a missing key reads as false
    inProgress: bool,
    startTime: Option<int>,
    // `time_spent` in seconds; None when the key is absent
    timeSpent: Option<int>)

  /** Every entry of `positions` is a valid position of a list of length `n`. */
  predicate Within(positions: seq<nat>, n: nat)
  {
    forall k :: 0 <= k < |positions| ==> positions[k] < n
  }

  predicate StrictlyIncreasing(s: seq<nat>)
  {
    forall i, j :: 0 <= i < j < |s| ==> s[i] < s[j]
  }

  /** The positions, in list order, of the tasks that `keep` selects: what a
      listing loop collects when it walks the list with `enumerate`. */
  function Positions(list: seq<Task>, keep: Task -> bool): (ps: seq<nat>)
    ensures Within(ps, |list|)
    decreases |list|
  {
    if list == [] then []
    else
      var n := |list| - 1;
      Positions(list[..n], keep) + (if keep(list[n]) then [n] else [])
  }

  /** A listing holds each selected position exactly once, in increasing order. */
  lemma {:induction false} PositionsSpec(list: seq<Task>, keep: Task -> bool)
    ensures StrictlyIncreasing(Positions(list, keep))
    ensures forall x: nat :: x in Positions(list, keep) <==> x < |list| && keep(list[x])
  {
    if list != [] {
      var n := |list| - 1;
      PositionsSpec(list[..n], keep);
      assert forall x: nat :: x < n ==> list[..n][x] == list[x];
    }
  }

  /** `s` with every occurrence of `x` taken out. */
  function Without(s: seq<nat>, x: nat): seq<nat>
    decreases |s|
  {
    if s == [] then []
    else
      var n := |s| - 1;
      Without(s[..n], x) + (if s[n] == x then [] else [s[n]])
  }

  lemma {:induction false} WithoutAbsent(s: seq<nat>, x: nat)
    requires x !in s
    ensures Without(s, x) == s
  {
    if s != [] {
      var n := |s| - 1;
      assert s[..n] + [s[n]] == s;
      WithoutAbsent(s[..n], x);
    }
  }

  /** In a strictly increasing sequence, taking out the value at `k` is
      taking out position `k`. */
  lemma {:induction false} WithoutAt(s: seq<nat>, k: nat)
    requires StrictlyIncreasing(s) && k < |s|
    ensures Without(s, s[k]) == s[..k] + s[k + 1..]
  {
    var n := |s| - 1;
    if k == n {
      assert s[k] !in s[..n];
      WithoutAbsent(s[..n], s[k]);
    } else {
      WithoutAt(s[..n], k);
      assert s[..n][..k] + s[..n][k + 1..] + [s[n]] == s[..k] + s[k + 1..];
    }
  }

  /** Replacing a selected task by one `keep` rejects removes exactly that
      position from the listing. */
  lemma {:induction false} PositionsAfterHide(list: seq<Task>, keep: Task -> bool, d: nat, t: Task)
    requires d < |list| && keep(list[d]) && !keep(t)
    ensures Positions(list[d := t], keep) == Without(Positions(list, keep), d)
  {
    var n := |list| - 1;
    var list' := list[d := t];
    if d == n {
      assert list'[..n] == list[..n];
      PositionsSpec(list[..n], keep);
      WithoutAbsent(Positions(list[..n], keep), d);
    } else {
      assert list'[..n] == list[..n][d := t];
      PositionsAfterHide(list[..n], keep, d, t);
      var before := Positions(list[..n], keep);
      if keep(list[n]) {
        assert (before + [n])[..|before|] == before;
        assert Without(before + [n], d) == Without(before, d) + [n];
      } else {
        assert Positions(list, keep) == before;
        assert Positions(list', keep) == Positions(list'[..n], keep);
      }
    }
  }
}
