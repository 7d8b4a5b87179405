/** The gesture debouncer (components/GestureController.tsx): a FIFO of at
    most eight votes, and a mode flip that needs more than six agreeing votes. */
module Debounce {
  import opened Types

  const Capacity: nat := 8
  /** A flip needs strictly more than this many agreeing votes. */
  const Supermajority: nat := 6

  /** `history.filter(g => g === m).length`. */
  function Count(history: seq<Mode>, m: Mode): (n: nat)
    ensures n <= |history|
  {
    if history == [] then 0
    else Count(history[..|history| - 1], m) + (if history[|history| - 1] == m then 1 else 0)
  }

  /** The count agrees with the multiplicity of `m` in the history, an
      independent description of `filter(g => g === m).length`. */
  lemma {:induction false} CountIsMultiplicity(history: seq<Mode>, m: Mode)
    ensures Count(history, m) == multiset(history)[m]
  {
    if history != [] {
      var init := history[..|history| - 1];
      CountIsMultiplicity(init, m);
      assert history == init + [history[|history| - 1]];
    }
  }

  /** Every vote is one of the two modes, so the counts add up to the length. */
  lemma {:induction false} CountsPartition(history: seq<Mode>)
    ensures Count(history, Assemble) + Count(history, Disperse) == |history|
  {
    if history != [] {
      CountsPartition(history[..|history| - 1]);
    }
  }

  /** Within the window, both modes can never have a supermajority at once. */
  lemma NoDoubleSupermajority(history: seq<Mode>)
    ensures |history| <= Capacity ==> !(Count(history, Assemble) > Supermajority && Count(history, Disperse) > Supermajority)
  {
    CountsPartition(history);
  }

  /** `push` then, above capacity, `shift`: the most recent votes, oldest
      evicted first. */
  function PushVote(history: seq<Mode>, vote: Mode): (r: seq<Mode>)
    ensures |history| < Capacity ==> r == history + [vote]
    ensures |history| == Capacity ==> r == history[1..] + [vote]
    ensures |history| <= Capacity ==> |r| <= Capacity
    ensures r != [] && r[|r| - 1] == vote
  {
    var pushed := history + [vote];
    if |pushed| > Capacity then pushed[1..] else pushed
  }

  /** The mode change a pushed vote triggers, if any: DISPERSE is tested
      first, then ASSEMBLE, and a flip only goes to a different mode. */
  function Decide(history: seq<Mode>, lastMode: Mode): (change: Option<Mode>)
    ensures change == Some(Disperse) <==>
              Count(history, Disperse) > Supermajority && lastMode != Disperse
    ensures change == Some(Assemble) <==>
              Count(history, Assemble) > Supermajority && lastMode != Assemble
    ensures change.Some? ==> change.value != lastMode
    ensures Count(history, Disperse) <= Supermajority && Count(history, Assemble) <= Supermajority ==>
              change == None
  {
    NoDoubleSupermajority(history);
    if Count(history, Disperse) > Supermajority && lastMode != Disperse then Some(Disperse)
    else if Count(history, Assemble) > Supermajority && lastMode != Assemble then Some(Assemble)
    else None
  }

  /** The debouncer's state between frames. */
  datatype Debouncer = Debouncer(history: seq<Mode>, lastMode: Mode)

  /** One voting frame: push, then possibly flip. */
  function Vote(d: Debouncer, vote: Mode): Debouncer
  {
    var h := PushVote(d.history, vote);
    match Decide(h, d.lastMode)
    case Some(m) => Debouncer(h, m)
    case None => Debouncer(h, d.lastMode)
  }

  /** A vote keeps the window bounded, and flips the mode only to one that
      now has more than six votes in the window. */
  lemma VoteFlipsOnSupermajority(d: Debouncer, vote: Mode)
    requires |d.history| <= Capacity
    ensures |Vote(d, vote).history| <= Capacity
    ensures Vote(d, vote).lastMode != d.lastMode ==>
              Count(Vote(d, vote).history, Vote(d, vote).lastMode) > Supermajority
    ensures (Count(Vote(d, vote).history, Disperse) <= Supermajority &&
             Count(Vote(d, vote).history, Assemble) <= Supermajority) ==>
              Vote(d, vote).lastMode == d.lastMode
  {
  }

  /** A hand reacquired after being lost starts from an empty history, so
      its first vote can never change the confirmed mode. */
  lemma FirstVoteKeepsMode(m: Mode, vote: Mode)
    ensures Vote(Debouncer([], m), vote) == Debouncer([vote], m)
  {
    CountsPartition([vote]);
  }

  /** The debouncer after a run of votes, oldest first. */
  function VoteAll(d: Debouncer, votes: seq<Mode>): Debouncer
  {
    if votes == [] then d else Vote(VoteAll(d, votes[..|votes| - 1]), votes[|votes| - 1])
  }

  /** `n` DISPERSE votes in a row. */
  function DisperseRun(n: nat): (r: seq<Mode>)
    ensures |r| == n
  {
    seq(n, _ => Disperse)
  }

  /** A history of one repeated vote counts that vote once per entry. */
  lemma {:induction false} CountAllSame(history: seq<Mode>, m: Mode)
    requires forall i :: 0 <= i < |history| ==> history[i] == m
    ensures Count(history, m) == |history|
  {
    if history != [] {
      CountAllSame(history[..|history| - 1], m);
    }
  }

  lemma CountDisperseRun(n: nat)
    ensures Count(DisperseRun(n), Disperse) == n
    ensures Count(DisperseRun(n), Assemble) == 0
  {
    CountAllSame(DisperseRun(n), Disperse);
    CountsPartition(DisperseRun(n));
  }

  /** The confirmed mode after `k` DISPERSE votes from ASSEMBLE. */
  function ModeAfterRun(k: nat): Mode
  {
    if k <= Supermajority then Assemble else Disperse
  }

  /** The `k`-th DISPERSE vote in a row. */
  lemma VoteAfterRun(k: nat)
    requires 0 < k <= Capacity
    ensures Vote(Debouncer(DisperseRun(k - 1), ModeAfterRun(k - 1)), Disperse) ==
              Debouncer(DisperseRun(k), ModeAfterRun(k))
  {
    assert DisperseRun(k - 1) + [Disperse] == DisperseRun(k);
    CountDisperseRun(k);
  }

  /** DISPERSE frames from an empty history in ASSEMBLE: the mode stays
      ASSEMBLE for six frames and flips on the seventh, the first with more
      than six votes. */
  lemma {:induction false} DisperseRunFlipsOnSeventh(k: nat)
    requires k <= Capacity
    ensures VoteAll(Debouncer([], Assemble), DisperseRun(k)) == Debouncer(DisperseRun(k), ModeAfterRun(k))
    ensures VoteAll(Debouncer([], Assemble), DisperseRun(k)).lastMode == Disperse <==> k >= 7
  {
    if k == 0 {
      assert DisperseRun(0) == [];
    } else {
      var run := DisperseRun(k);
      assert run[..k - 1] == DisperseRun(k - 1) && run[k - 1] == Disperse;
      DisperseRunFlipsOnSeventh(k - 1);
      VoteAfterRun(k);
    }
  }

  /** How many of the last `n` votes the window keeps. */
  function Window(n: nat): (w: nat)
    ensures w <= n && w <= Capacity
    ensures w == n || w == Capacity
  {
    if n < Capacity then n else Capacity
  }

  /** From an empty history, the window holds exactly the last (at most)
      eight votes, in order. */
  lemma {:induction false} WindowIsLastVotes(mode: Mode, votes: seq<Mode>)
    ensures VoteAll(Debouncer([], mode), votes).history == votes[|votes| - Window(|votes|)..]
  {
    if votes != [] {
      var n := |votes|;
      var init := votes[..n - 1];
      WindowIsLastVotes(mode, init);
      WindowStep(votes, VoteAll(Debouncer([], mode), init).history);
    }
  }

  /** One step of WindowIsLastVotes: pushing the newest vote onto the window
      of the earlier ones gives the window of all of them. */
  lemma WindowStep(votes: seq<Mode>, h: seq<Mode>)
    requires votes != []
    requires h == votes[..|votes| - 1][|votes| - 1 - Window(|votes| - 1)..]
    ensures PushVote(h, votes[|votes| - 1]) == votes[|votes| - Window(|votes|)..]
  {
    var n := |votes|;
    var last := votes[n - 1];
    if n - 1 >= Capacity {
      assert h == votes[n - 1 - Capacity..n - 1];
      assert h[1..] + [last] == votes[n - Capacity..];
    } else {
      assert h == votes[..n - 1];
      assert h + [last] == votes;
    }
  }
}
