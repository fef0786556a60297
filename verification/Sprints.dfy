/** Sprint counting over one player's speed series, whole and cut into fifteen-minute blocks. */
module Sprints {
  import opened Common

  datatype Sample = Sample(time: real, speed: real)

  const SPRINT_SPEED: real := 5.5
  const MIN_SPRINT_DURATION: real := 1.0
  const BLOCK_SECONDS: real := 900.0

  predicate Fast(s: Sample) {
    s.speed >= SPRINT_SPEED
  }

  predicate LongEnough(start: real, end: real) {
    end - start >= MIN_SPRINT_DURATION
  }

  // -- what a sprint is ------------------------------------------------------

  /** A maximal fast run starts here: a fast sample with no fast sample before it. */
  predicate StartsRun(s: seq<Sample>, i: int) {
    0 <= i < |s| && Fast(s[i]) && (i == 0 || !Fast(s[i - 1]))
  }

  /** When the run that is on at index `i` is over: at the first slow sample, or at the end of the series. */
  function RunEnd(s: seq<Sample>, i: nat, end: real): real
    requires i <= |s|
    decreases |s| - i
  {
    if i == |s| then end
    else if !Fast(s[i]) then s[i].time
    else RunEnd(s, i + 1, end)
  }

  predicate IsSprint(s: seq<Sample>, i: int, end: real) {
    StartsRun(s, i) && LongEnough(s[i].time, RunEnd(s, i, end))
  }

  /** The starts of the maximal fast runs that last at least the minimum. */
  function SprintStarts(s: seq<Sample>, end: real): set<int> {
    set i | 0 <= i < |s| && IsSprint(s, i, end)
  }

  /** The first samples of two columns, as `zip` pairs them. */
  function Zip(times: seq<real>, speeds: seq<real>): (s: seq<Sample>)
    ensures |s| == if |times| <= |speeds| then |times| else |speeds|
    ensures forall i :: 0 <= i < |s| ==> s[i] == Sample(times[i], speeds[i])
  {
    seq(if |times| <= |speeds| then |times| else |speeds|,
        i requires 0 <= i < |times| && i < |speeds| => Sample(times[i], speeds[i]))
  }

  function LastTime(times: seq<real>): real {
    if times == [] then 0.0 else times[|times| - 1]
  }

  /** The run that starts at `i` goes up to the next slow sample, or to the end of the series. */
  ghost predicate RunGoesUpTo(s: seq<Sample>, i: nat, j: nat) {
    && i < j <= |s|
    && (forall k :: i <= k < j ==> s[k].speed >= 5.5)
    && (j < |s| ==> s[j].speed < 5.5)
  }

  lemma {:induction false} RunsEndOnce(s: seq<Sample>, i: nat, end: real) returns (j: nat)
    requires i < |s| && s[i].speed >= 5.5
    ensures RunGoesUpTo(s, i, j) && forall k :: RunGoesUpTo(s, i, k) ==> k == j
    ensures RunEnd(s, i, end) == if j < |s| then s[j].time else end
    decreases |s| - i
  {
    if i + 1 == |s| || s[i + 1].speed < 5.5 {
      j := i + 1;
      assert RunGoesUpTo(s, i, j);
    } else {
      j := RunsEndOnce(s, i + 1, end);
      forall k | RunGoesUpTo(s, i, k) ensures k == j {
        assert RunGoesUpTo(s, i + 1, k);
      }
    }
  }

  /** Sprints start where speed first reaches 5.5, and last for at least a second until it falls below again. */
  lemma SprintsStartIff(s: seq<Sample>, end: real, i: int)
    ensures i in SprintStarts(s, end) <==>
      && 0 <= i < |s| && s[i].speed >= 5.5 && (i > 0 ==> s[i - 1].speed < 5.5)
      && exists j: nat :: i >= 0 && RunGoesUpTo(s, i, j) && (if j < |s| then s[j].time else end) - s[i].time >= 1.0
  {
    if 0 <= i < |s| && s[i].speed >= 5.5 {
      var j := RunsEndOnce(s, i, end);
    }
  }

  // -- the loop --------------------------------------------------------------

  lemma {:induction false} RunEndSkipsFast(s: seq<Sample>, i: nat, j: nat, end: real)
    requires i <= j <= |s|
    requires forall k :: i <= k < j ==> Fast(s[k])
    ensures RunEnd(s, i, end) == RunEnd(s, j, end)
    decreases j - i
  {
    if i < j {
      RunEndSkipsFast(s, i + 1, j, end);
    }
  }

  /** The sprints that are over before index `n`: their closing slow sample has been seen. */
  ghost function ClosedBefore(s: seq<Sample>, n: nat, end: real): set<int>
    requires n <= |s|
  {
    set i | 0 <= i < n && IsSprint(s, i, end) && exists k :: i < k < n && !Fast(s[k])
  }

  /** Counts the maximal fast runs that last long enough; an open run ends with the last time. */
  method CountSprints(times: seq<real>, speeds: seq<real>) returns (count: nat)
    ensures count == |SprintStarts(Zip(times, speeds), LastTime(times))|
  {
    ghost var s, end := Zip(times, speeds), LastTime(times);
    var inSprint, sprintStart := false, 0.0;
    ghost var open := 0;
    count := 0;
    var i := 0;
    while i < |times| && i < |speeds|
      invariant 0 <= i <= |s|
      invariant count == |ClosedBefore(s, i, end)|
      invariant inSprint <==> i > 0 && Fast(s[i - 1])
      invariant inSprint ==> RunsOn(s, open, i) && sprintStart == s[open].time
    {
      hide ClosedBefore, RunsOn, StartsRun, IsSprint;
      var t, v := times[i], speeds[i];
      if Fast(s[i]) {
        RunGrows(s, open, i);
      }
      if !inSprint && v >= SPRINT_SPEED {
        NothingCloses(s, i, end);
        inSprint, sprintStart := true, t;
        open := i;
      } else if inSprint && v < SPRINT_SPEED {
        ClosingAddsTheOpenRun(s, open, i, end);
        if t - sprintStart >= MIN_SPRINT_DURATION {
          count := count + 1;
        }
        inSprint := false;
      } else {
        NothingCloses(s, i, end);
      }
      i := i + 1;
    }
    hide ClosedBefore, SprintStarts, RunsOn, StartsRun, IsSprint;
    if inSprint {
      OnlyTheOpenRunRemains(s, open, end);
    } else {
      NothingRemainsOpen(s, end);
    }
    if inSprint && times[|times| - 1] - sprintStart >= MIN_SPRINT_DURATION {
      count := count + 1;
    }
  }

  /** The run that starts at `open` has not ended before `n`. */
  ghost predicate RunsOn(s: seq<Sample>, open: nat, n: nat) {
    open < n <= |s| && StartsRun(s, open) && forall k :: open <= k < n ==> Fast(s[k])
  }

  lemma RunGrows(s: seq<Sample>, open: nat, i: nat)
    requires i < |s| && Fast(s[i])
    ensures RunsOn(s, open, i) ==> RunsOn(s, open, i + 1)
    ensures i == 0 || !Fast(s[i - 1]) ==> RunsOn(s, i, i + 1)
  {
  }

  lemma NothingCloses(s: seq<Sample>, n: nat, end: real)
    requires n < |s| && (Fast(s[n]) || n == 0 || !Fast(s[n - 1]))
    ensures ClosedBefore(s, n + 1, end) == ClosedBefore(s, n, end)
  {
    forall i | i in ClosedBefore(s, n + 1, end) ensures i in ClosedBefore(s, n, end) {
      var k :| i < k < n + 1 && !Fast(s[k]);
      if k == n {
        assert i < n - 1;
      }
    }
  }

  lemma ClosingAddsTheOpenRun(s: seq<Sample>, open: nat, n: nat, end: real)
    requires RunsOn(s, open, n) && n < |s| && !Fast(s[n])
    ensures |ClosedBefore(s, n + 1, end)|
         == |ClosedBefore(s, n, end)| + if LongEnough(s[open].time, s[n].time) then 1 else 0
  {
    RunEndSkipsFast(s, open, n, end);
    assert open !in ClosedBefore(s, n, end);
    assert ClosedBefore(s, n + 1, end) == ClosedBefore(s, n, end) + (if IsSprint(s, open, end) then {open} else {}) by {
      OnlyTheOpenRunCloses(s, open, n, end);
    }
  }

  lemma OnlyTheOpenRunCloses(s: seq<Sample>, open: nat, n: nat, end: real)
    requires RunsOn(s, open, n) && n < |s| && !Fast(s[n])
    ensures ClosedBefore(s, n + 1, end)
         == ClosedBefore(s, n, end) + if IsSprint(s, open, end) then {open} else {}
  {
    forall i | i in ClosedBefore(s, n + 1, end) && i != open ensures i in ClosedBefore(s, n, end) {
      var k :| i < k < n + 1 && !Fast(s[k]);
      if k == n {
        assert i < open;
        assert !Fast(s[open - 1]);
      }
    }
  }

  lemma OnlyTheOpenRunRemains(s: seq<Sample>, open: nat, end: real)
    requires RunsOn(s, open, |s|)
    ensures |SprintStarts(s, end)| == |ClosedBefore(s, |s|, end)| + if LongEnough(s[open].time, end) then 1 else 0
  {
    RunEndSkipsFast(s, open, |s|, end);
    assert open !in ClosedBefore(s, |s|, end);
    assert SprintStarts(s, end) == ClosedBefore(s, |s|, end) + (if IsSprint(s, open, end) then {open} else {}) by {
      OthersClosed(s, open, end);
    }
  }

  lemma OthersClosed(s: seq<Sample>, open: nat, end: real)
    requires RunsOn(s, open, |s|)
    ensures SprintStarts(s, end) == ClosedBefore(s, |s|, end) + if IsSprint(s, open, end) then {open} else {}
  {
    forall i | i in SprintStarts(s, end) && i != open ensures i in ClosedBefore(s, |s|, end) {
      assert i < open;
      assert !Fast(s[open - 1]);
    }
  }

  lemma NothingRemainsOpen(s: seq<Sample>, end: real)
    requires s == [] || !Fast(s[|s| - 1])
    ensures SprintStarts(s, end) == ClosedBefore(s, |s|, end)
  {
    if s != [] {
      forall i | i in SprintStarts(s, end) ensures i in ClosedBefore(s, |s|, end) {
        assert i < |s| - 1;
      }
    }
  }

  // -- cutting a series ------------------------------------------------------

  /** The count of one series on its own: the program applies the loop to each block and to each player. */
  function Sprints(s: seq<Sample>): nat {
    |SprintStarts(s, EndOf(s))|
  }

  function EndOf(s: seq<Sample>): real {
    if s == [] then 0.0 else s[|s| - 1].time
  }

  ghost predicate TimesNeverFall(s: seq<Sample>) {
    forall i, j :: 0 <= i <= j < |s| ==> s[i].time <= s[j].time
  }

  /** The same count from the left, given when the run in progress started; the form that can be cut. */
  function CountFrom(s: seq<Sample>, open: Option<real>, last: real): nat {
    if s == [] then
      if open.Some? && LongEnough(open.value, last) then 1 else 0
    else if Fast(s[0]) then
      CountFrom(s[1..], if open.Some? then open else Some(s[0].time), s[0].time)
    else
      (if open.Some? && LongEnough(open.value, s[0].time) then 1 else 0) + CountFrom(s[1..], None, s[0].time)
  }

  /** The run in progress after `s`, and the sprints over by then. */
  function OpenAfter(s: seq<Sample>, open: Option<real>): Option<real> {
    if s == [] then open
    else OpenAfter(s[1..], if !Fast(s[0]) then None else if open.Some? then open else Some(s[0].time))
  }

  function ClosedIn(s: seq<Sample>, open: Option<real>): nat {
    if s == [] then 0
    else if Fast(s[0]) then ClosedIn(s[1..], if open.Some? then open else Some(s[0].time))
    else (if open.Some? && LongEnough(open.value, s[0].time) then 1 else 0) + ClosedIn(s[1..], None)
  }

  lemma {:induction false} CountFromConcat(a: seq<Sample>, b: seq<Sample>, open: Option<real>, last: real)
    ensures CountFrom(a + b, open, last)
         == ClosedIn(a, open) + CountFrom(b, OpenAfter(a, open), if a == [] then last else EndOf(a))
  {
    if a == [] {
      assert a + b == b;
    } else {
      hide Fast, LongEnough;
      assert (a + b)[0] == a[0] && (a + b)[1..] == a[1..] + b;
      if Fast(a[0]) {
        CountFromConcat(a[1..], b, if open.Some? then open else Some(a[0].time), a[0].time);
      } else {
        CountFromConcat(a[1..], b, None, a[0].time);
      }
    }
  }

  /** A run already in progress can add at most one sprint, and never takes one away. */
  lemma {:induction false} OpenRunAddsAtMostOne(s: seq<Sample>, start: real, last: real)
    requires TimesNeverFall(s) && start <= last && (s != [] ==> last <= s[0].time)
    ensures CountFrom(s, None, last) <= CountFrom(s, Some(start), last) <= CountFrom(s, None, last) + 1
  {
    if s != [] && Fast(s[0]) {
      TwoOpenRunsDifferByOne(s[1..], start, s[0].time, s[0].time);
    }
  }

  lemma {:induction false} TwoOpenRunsDifferByOne(s: seq<Sample>, early: real, late: real, last: real)
    requires TimesNeverFall(s) && early <= late <= last && (s != [] ==> last <= s[0].time)
    ensures CountFrom(s, Some(late), last) <= CountFrom(s, Some(early), last) <= CountFrom(s, Some(late), last) + 1
  {
    if s != [] && Fast(s[0]) {
      TwoOpenRunsDifferByOne(s[1..], early, late, s[0].time);
    }
  }

  lemma {:induction false} OpenRunStartsInside(s: seq<Sample>, open: Option<real>)
    requires TimesNeverFall(s) && s != [] && (open.Some? ==> open.value <= s[0].time)
    ensures OpenAfter(s, open).Some? ==> OpenAfter(s, open).value <= EndOf(s)
  {
    var next := if !Fast(s[0]) then None else if open.Some? then open else Some(s[0].time);
    if |s| > 1 {
      OpenRunStartsInside(s[1..], next);
    } else {
      assert s[1..] == [];
    }
  }

  /** The left-to-right count is the number of sprints. */
  lemma {:induction false} CountFromIsSprints(s: seq<Sample>)
    ensures CountFrom(s, None, EndOf(s)) == Sprints(s)
  {
    SuffixCount(s, 0, EndOf(s));
    assert s[0..] == s;
    assert SprintStarts(s, EndOf(s)) == StartsFrom(s, 0, EndOf(s));
  }

  ghost function StartsFrom(s: seq<Sample>, n: nat, end: real): set<int>
    requires n <= |s|
  {
    set i | n <= i < |s| && IsSprint(s, i, end)
  }

  /** At any index, what is left to count is the sprints that start later, plus the run in progress. */
  lemma {:induction false} SuffixCount(s: seq<Sample>, n: nat, end: real)
    requires n <= |s| && end == EndOf(s)
    ensures n == 0 || !Fast(s[n - 1]) ==>
      CountFrom(s[n..], None, if n == 0 then end else s[n - 1].time) == |StartsFrom(s, n, end)|
    ensures n > 0 && Fast(s[n - 1]) ==> forall start: real ::
      CountFrom(s[n..], Some(start), s[n - 1].time)
      == |StartsFrom(s, n, end)| + if LongEnough(start, RunEnd(s, n, end)) then 1 else 0
    decreases |s| - n
  {
    if n == |s| {
      assert StartsFrom(s, n, end) == {};
    } else {
      SuffixCount(s, n + 1, end);
      assert s[n..][1..] == s[n + 1..];
      if StartsRun(s, n) {
        assert StartsFrom(s, n, end) == StartsFrom(s, n + 1, end) + if IsSprint(s, n, end) then {n} else {};
        assert n !in StartsFrom(s, n + 1, end);
      } else {
        assert StartsFrom(s, n, end) == StartsFrom(s, n + 1, end);
      }
    }
  }

  /** Cutting a series in two changes its count by at most one, either way. */
  lemma CutChangesCountByAtMostOne(a: seq<Sample>, b: seq<Sample>)
    requires TimesNeverFall(a + b)
    ensures -1 <= Sprints(a + b) - (Sprints(a) + Sprints(b)) <= 1
  {
    if a == [] {
      assert a + b == b;
    } else if b == [] {
      assert a + b == a;
    } else {
      assert a == (a + b)[..|a|] && b == (a + b)[|a|..];
      assert forall i :: 0 <= i < |a| ==> a[i] == (a + b)[i];
      assert forall i :: 0 <= i < |b| ==> b[i] == (a + b)[|a| + i];
      hide Sprints, CountFrom, OpenAfter, ClosedIn;
      CountFromIsSprints(a + b);
      CountFromIsSprints(a);
      CountFromIsSprints(b);
      CountFromConcat(a, b, None, EndOf(a + b));
      CountFromConcat(a, [], None, EndOf(a));
      assert a + [] == a;
      OpenRunStartsInside(a, None);
      NothingFollows(OpenAfter(a, None), EndOf(a));
      if OpenAfter(a, None).Some? {
        OpenRunAddsAtMostOne(b, OpenAfter(a, None).value, EndOf(a));
      }
      LastIsIrrelevant(b, EndOf(a), EndOf(b));
    }
  }

  lemma NothingFollows(open: Option<real>, last: real)
    ensures CountFrom([], open, last) == if open.Some? && LongEnough(open.value, last) then 1 else 0
  {
  }

  /** Without a run in progress, the time before the series does not matter. */
  lemma LastIsIrrelevant(s: seq<Sample>, last: real, last': real)
    ensures CountFrom(s, None, last) == CountFrom(s, None, last')
  {
  }

  // -- blocks ----------------------------------------------------------------

  function BlockOf(s: Sample): int {
    (s.time / BLOCK_SECONDS).Floor
  }

  /** A block is fifteen minutes. */
  lemma BlocksAreFifteenMinutes(s: Sample, block: int)
    ensures BlockOf(s) == block <==> 900.0 * block as real <= s.time < 900.0 * (block + 1) as real
  {
  }

  function BlockPrefix(s: seq<Sample>): (n: nat)
    requires s != []
    ensures 1 <= n <= |s|
    ensures forall i :: 0 <= i < n ==> BlockOf(s[i]) == BlockOf(s[0])
    ensures n < |s| ==> BlockOf(s[n]) != BlockOf(s[0])
  {
    if |s| > 1 && BlockOf(s[1]) == BlockOf(s[0]) then
      assert BlockOf(s[1..][0]) == BlockOf(s[0]);
      BlockPrefix(s[1..]) + 1
    else 1
  }

  /** One group per block, in order: what grouping a time-sorted series by block yields. */
  function ByBlock(s: seq<Sample>): seq<seq<Sample>> {
    if s == [] then [] else [s[..BlockPrefix(s)]] + ByBlock(s[BlockPrefix(s)..])
  }

  function Flatten(blocks: seq<seq<Sample>>): seq<Sample> {
    if blocks == [] then [] else blocks[0] + Flatten(blocks[1..])
  }

  /** The per-block figure, with the guard the program puts before the loop. */
  function BlockSprints(block: seq<Sample>): nat {
    if |block| > 1 then Sprints(block) else 0
  }

  function SumBlocks(blocks: seq<seq<Sample>>): nat {
    if blocks == [] then 0 else BlockSprints(blocks[0]) + SumBlocks(blocks[1..])
  }

  /** The guard changes nothing: a single sample is no sprint. */
  lemma GuardChangesNothing(block: seq<Sample>)
    ensures BlockSprints(block) == Sprints(block)
  {
    CountFromIsSprints(block);
    if |block| == 1 {
      assert block[1..] == [];
    }
  }

  /** Grouping by block loses nothing and keeps the order. */
  lemma {:induction false} GroupsFlattenToTheSeries(s: seq<Sample>)
    ensures Flatten(ByBlock(s)) == s
  {
    if s != [] {
      GroupsFlattenToTheSeries(s[BlockPrefix(s)..]);
    }
  }

  /** A group is not empty, and holds samples of the series from one block. */
  ghost predicate OneBlockOf(group: seq<Sample>, s: seq<Sample>) {
    group != [] && forall i :: 0 <= i < |group| ==> group[i] in s && BlockOf(group[i]) == BlockOf(group[0])
  }

  lemma {:induction false} GroupsHoldOneBlock(s: seq<Sample>)
    ensures forall k :: 0 <= k < |ByBlock(s)| ==> OneBlockOf(ByBlock(s)[k], s)
  {
    if s != [] {
      var rest := s[BlockPrefix(s)..];
      GroupsHoldOneBlock(rest);
      forall k | 1 <= k < |ByBlock(s)| ensures OneBlockOf(ByBlock(s)[k], s) {
        assert ByBlock(s)[k] == ByBlock(rest)[k - 1];
        assert forall x :: x in rest ==> x in s;
      }
    }
  }

  ghost predicate EarlierBlock(a: seq<Sample>, b: seq<Sample>) {
    a != [] && b != [] && BlockOf(a[0]) < BlockOf(b[0])
  }

  /** The groups are the blocks that occur, each exactly once and in ascending order. */
  lemma {:induction false} GroupsAscend(s: seq<Sample>)
    requires TimesNeverFall(s)
    ensures forall k :: 0 <= k < |ByBlock(s)| ==> OneBlockOf(ByBlock(s)[k], s)
    ensures forall i, j :: 0 <= i < j < |ByBlock(s)| ==> EarlierBlock(ByBlock(s)[i], ByBlock(s)[j])
  {
    GroupsHoldOneBlock(s);
    if s != [] {
      hide BlockOf;
      var n := BlockPrefix(s);
      var rest := s[n..];
      GroupsAscend(rest);
      forall j | 1 <= j < |ByBlock(s)| ensures EarlierBlock(ByBlock(s)[0], ByBlock(s)[j]) {
        assert ByBlock(s)[j] == ByBlock(rest)[j - 1];
        assert OneBlockOf(ByBlock(rest)[j - 1], rest);
        var i :| 0 <= i < |rest| && rest[i] == ByBlock(rest)[j - 1][0];
        BlocksNeverFall(s[0], s[n]);
        BlocksNeverFall(s[n], s[n + i]);
      }
    }
  }

  lemma BlocksNeverFall(a: Sample, b: Sample)
    requires a.time <= b.time
    ensures BlockOf(a) <= BlockOf(b)
  {
    assert a.time / BLOCK_SECONDS <= b.time / BLOCK_SECONDS;
  }

  /** The sum over any consecutive pieces differs from the whole by at most one for each cut. */
  lemma {:induction false} PiecesDifferByCuts(blocks: seq<seq<Sample>>)
    requires blocks != [] && TimesNeverFall(Flatten(blocks))
    ensures -(|blocks| - 1) <= SumBlocks(blocks) - Sprints(Flatten(blocks)) <= |blocks| - 1
  {
    var rest := Flatten(blocks[1..]);
    GuardChangesNothing(blocks[0]);
    if |blocks| == 1 {
      assert blocks[1..] == [];
      assert blocks[0] + rest == blocks[0];
    } else {
      var whole := Flatten(blocks);
      assert forall i :: 0 <= i < |rest| ==> rest[i] == whole[|blocks[0]| + i];
      CutChangesCountByAtMostOne(blocks[0], rest);
      PiecesDifferByCuts(blocks[1..]);
    }
  }

  /** Summed block sprints differ from the player's total by at most the number of blocks minus one. */
  lemma BlockSprintsTrackTheTotal(s: seq<Sample>)
    requires TimesNeverFall(s) && s != []
    ensures
      var difference := SumBlocks(ByBlock(s)) - BlockSprints(s);
      -(|ByBlock(s)| - 1) <= difference <= |ByBlock(s)| - 1
  {
    GroupsFlattenToTheSeries(s);
    PiecesDifferByCuts(ByBlock(s));
    GuardChangesNothing(s);
  }
}
