/** The heartbeat of one connection: the `isAlive` flag, set by a pong and
    by accepting the connection, cleared by each ping tick, and the
    termination of a connection found not alive at a tick. */
module Heartbeat {
  import opened Optional

  /** What happens to one connection: a ping tick, or a pong from the client. */
  datatype Beat = Tick | Pong

  /** The flag after one event, or None once the connection is terminated.
      A tick terminates a connection that is not alive and otherwise
      clears the flag and sends a ping; a pong sets the flag. */
  function Step(alive: bool, b: Beat): (r: Option<bool>)
    ensures r.None? <==> b == Tick && !alive
    ensures b == Tick && alive ==> r == Some(false)
    ensures b == Pong ==> r == Some(true)
  {
    match b
    case Pong => Some(true)
    case Tick => if alive then Some(false) else None
  }

  /** The flag after a run of events, or None once terminated. */
  function Run(alive: bool, beats: seq<Beat>): Option<bool>
    decreases |beats|
  {
    if beats == [] then Some(alive)
    else match Step(alive, beats[0])
      case None => None
      case Some(next) => Run(next, beats[1..])
  }

  /** Between positions i and j every event is a tick: no pong came. */
  ghost predicate NoPongBetween(beats: seq<Beat>, i: int, j: int)
    requires 0 <= i <= j < |beats|
  {
    forall k :: i < k < j ==> beats[k] == Tick
  }

  /** Two ticks happened with no pong between them. */
  ghost predicate MissedTwo(beats: seq<Beat>) {
    exists i, j :: 0 <= i < j < |beats| && beats[i] == Tick && beats[j] == Tick && NoPongBetween(beats, i, j)
  }

  /** Missing two ticks in a suffix is missing them in the whole run. */
  lemma MissedTwoSuffix(s: seq<Beat>, n: nat)
    requires n <= |s|
    requires MissedTwo(s[n..])
    ensures MissedTwo(s)
  {
    var rest := s[n..];
    var i, j :| 0 <= i < j < |rest| && rest[i] == Tick && rest[j] == Tick && NoPongBetween(rest, i, j);
    assert s[i + n] == Tick && s[j + n] == Tick;
    assert NoPongBetween(s, i + n, j + n) by {
      forall k | i + n < k < j + n ensures s[k] == Tick {
        assert s[k] == rest[k - n];
      }
    }
  }

  /** Two missed ticks cannot straddle a pong, and at most one event comes
      before the pong at position m, so both lie after it. */
  lemma MissedTwoAfterPong(s: seq<Beat>, m: nat)
    requires m <= 1 && m < |s| && s[m] == Pong
    requires MissedTwo(s)
    ensures MissedTwo(s[m + 1..])
  {
    var n := m + 1;
    var rest := s[n..];
    var i, j :| 0 <= i < j < |s| && s[i] == Tick && s[j] == Tick && NoPongBetween(s, i, j);
    assert !(i < m < j);
    assert i > m;
    assert rest[i - n] == Tick && rest[j - n] == Tick;
    assert NoPongBetween(rest, i - n, j - n) by {
      forall k | i - n < k < j - n ensures rest[k] == Tick {
        assert rest[k] == s[k + n];
      }
    }
  }

  /** A pong after at most one earlier event forgets everything before it. */
  lemma PongForgets(p: seq<Beat>, rest: seq<Beat>)
    requires |p| <= 1
    ensures MissedTwo(p + [Pong] + rest) <==> MissedTwo(rest)
  {
    var s := p + [Pong] + rest;
    assert s[|p| + 1..] == rest;
    if MissedTwo(rest) {
      MissedTwoSuffix(s, |p| + 1);
    }
    if MissedTwo(s) {
      MissedTwoAfterPong(s, |p|);
    }
  }

  /** A connection is terminated exactly when it sees two ticks with no
      pong between them. A flag that is already cleared counts as one tick
      already seen. */
  lemma {:induction false} TerminatedIff(alive: bool, beats: seq<Beat>)
    ensures Run(alive, beats).None? <==> MissedTwo(if alive then beats else [Tick] + beats)
    decreases |beats|
  {
    if beats == [] {
      var s := if alive then beats else [Tick] + beats;
      assert |s| <= 1;
    } else {
      var p: seq<Beat> := if alive then [] else [Tick];
      var rest := beats[1..];
      assert beats == [beats[0]] + rest;
      assert (if alive then beats else [Tick] + beats) == p + [beats[0]] + rest;
      match beats[0]
      case Pong =>
        TerminatedIff(true, rest);
        PongForgets(p, rest);
      case Tick =>
        if alive {
          TerminatedIff(false, rest);
        } else {
          var s := [Tick] + beats;
          assert s[0] == Tick && s[1] == Tick && NoPongBetween(s, 0, 1);
        }
    }
  }

  /** A fresh or just-ponged connection that never pongs again survives one
      tick and is terminated by the second. */
  lemma NeverPongedTerminatedBySecondTick(rest: seq<Beat>)
    ensures Run(true, [Tick]) == Some(false)
    ensures Run(true, [Tick, Tick] + rest) == None
  {
    assert ([Tick, Tick] + rest)[1..] == [Tick] + rest;
  }
}
