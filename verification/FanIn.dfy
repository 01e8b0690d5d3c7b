/** Waiting for many resources at once: one worker per resource, two buffered channels, one collector. */
module FanIn {

  /** The workers still polling or about to send, the two channels, and what the collector has so far. */
  datatype State = State(unsent: set<nat>, errChan: seq<nat>, doneChan: nat, errs: seq<nat>, received: nat)

  /** A worker sends its one message, or the collector takes one from either channel. */
  datatype Move = Send(w: nat) | TakeError | TakeDone

  function Workers(n: nat): (ws: set<nat>)
    ensures |ws| == n && forall w: nat :: w in ws <==> w < n
  {
    if n == 0 then {} else Workers(n - 1) + {n - 1}
  }

  function Start(n: nat): State {
    State(Workers(n), [], 0, [], 0)
  }

  /** The workers whose poll times out. */
  function TimedOut(reached: seq<bool>): set<nat> {
    set w: nat | w < |reached| && !reached[w]
  }

  /** Worker `w` does not block on its send.  Both channels have one place per worker. */
  predicate HasRoom(reached: seq<bool>, s: State, w: nat)
    requires w < |reached|
  {
    if reached[w] then s.doneChan < |reached| else |s.errChan| < |reached|
  }

  predicate Enabled(reached: seq<bool>, s: State, m: Move) {
    match m
    case Send(w) => w in s.unsent && w < |reached| && HasRoom(reached, s, w)
    case TakeError => s.received < |reached| && s.errChan != []
    case TakeDone => s.received < |reached| && s.doneChan > 0
  }

  function Do(reached: seq<bool>, s: State, m: Move): State
    requires Enabled(reached, s, m)
  {
    match m
    case Send(w) =>
      if reached[w] then s.(unsent := s.unsent - {w}, doneChan := s.doneChan + 1)
      else s.(unsent := s.unsent - {w}, errChan := s.errChan + [w])
    case TakeError => s.(errChan := s.errChan[1..], errs := s.errs + [s.errChan[0]], received := s.received + 1)
    case TakeDone => s.(doneChan := s.doneChan - 1, received := s.received + 1)
  }

  ghost predicate ValidSchedule(reached: seq<bool>, s: State, ms: seq<Move>)
    decreases |ms|
  {
    ms == [] || (Enabled(reached, s, ms[0]) && ValidSchedule(reached, Do(reached, s, ms[0]), ms[1..]))
  }

  ghost function Run(reached: seq<bool>, s: State, ms: seq<Move>): State
    requires ValidSchedule(reached, s, ms)
    decreases |ms|
  {
    if ms == [] then s else Run(reached, Do(reached, s, ms[0]), ms[1..])
  }

  /** Every worker's message is unsent, in a channel or received, and the errors are the timeouts. */
  ghost predicate Inv(reached: seq<bool>, s: State) {
    && (forall w <- s.unsent :: w < |reached|)
    && |s.unsent| + |s.errChan| + s.doneChan + s.received == |reached|
    && multiset(s.errs) + multiset(s.errChan) == multiset(TimedOut(reached) - s.unsent)
  }

  function Left(s: State): nat {
    2 * |s.unsent| + |s.errChan| + s.doneChan
  }

  lemma OneMore(s: set<nat>, w: nat)
    requires w !in s
    ensures multiset(s + {w}) == multiset(s) + multiset{w}
  {}

  lemma MoveKeepsInv(reached: seq<bool>, s: State, m: Move)
    requires Inv(reached, s) && Enabled(reached, s, m)
    ensures Inv(reached, Do(reached, s, m)) && Left(Do(reached, s, m)) == Left(s) - 1
  {
    match m
    case Send(w) =>
      var rest := s.unsent - {w};
      assert |rest| == |s.unsent| - 1;
      if reached[w] {
        assert TimedOut(reached) - rest == TimedOut(reached) - s.unsent;
      } else {
        assert TimedOut(reached) - rest == (TimedOut(reached) - s.unsent) + {w};
        OneMore(TimedOut(reached) - s.unsent, w);
      }
    case TakeError =>
      assert s.errChan == [s.errChan[0]] + s.errChan[1..];
    case TakeDone =>
  }

  lemma {:induction false} ScheduleKeepsInv(reached: seq<bool>, s: State, ms: seq<Move>)
    requires Inv(reached, s) && ValidSchedule(reached, s, ms)
    ensures Inv(reached, Run(reached, s, ms)) && |ms| + Left(Run(reached, s, ms)) == Left(s)
    decreases |ms|
  {
    if ms == [] {
    } else {
      MoveKeepsInv(reached, s, ms[0]);
      ScheduleKeepsInv(reached, Do(reached, s, ms[0]), ms[1..]);
    }
  }

  /** In every schedule, whatever the number of workers and whoever times out: no worker ever blocks on its
      send, something can move until the collector has one message per worker, and that takes at most two
      moves per worker; then nothing is left over and the errors are the timeouts in some order. */
  lemma NobodyBlocks(reached: seq<bool>, ms: seq<Move>)
    requires ValidSchedule(reached, Start(|reached|), ms)
    ensures var s := Run(reached, Start(|reached|), ms);
            && (forall w <- s.unsent :: w < |reached| && HasRoom(reached, s, w))
            && (s.received < |reached| ==> exists m :: Enabled(reached, s, m))
            && |ms| <= 2 * |reached| && s.received <= |reached|
            && (s.received == |reached| ==>
                  && s.unsent == {} && s.errChan == [] && s.doneChan == 0
                  && multiset(s.errs) == multiset(TimedOut(reached)))
  {
    var n := |reached|;
    assert TimedOut(reached) - Workers(n) == {};
    ScheduleKeepsInv(reached, Start(n), ms);
    var s := Run(reached, Start(n), ms);
    if s.received < n {
      if s.errChan != [] {
        assert Enabled(reached, s, TakeError);
      } else if s.doneChan > 0 {
        assert Enabled(reached, s, TakeDone);
      } else {
        var w :| w in s.unsent;
        assert Enabled(reached, s, Send(w));
      }
    } else {
      assert TimedOut(reached) - s.unsent == TimedOut(reached);
    }
    forall w <- s.unsent ensures w < n && HasRoom(reached, s, w) {
      assert |s.unsent| > 0;
    }
  }

  lemma {:induction false} OneMoreMove(reached: seq<bool>, s: State, ms: seq<Move>, m: Move)
    requires ValidSchedule(reached, s, ms) && Enabled(reached, Run(reached, s, ms), m)
    ensures ValidSchedule(reached, s, ms + [m])
    ensures Run(reached, s, ms + [m]) == Do(reached, Run(reached, s, ms), m)
    decreases |ms|
  {
    if ms == [] {
      assert [m][1..] == [] && [] + [m] == [m];
    } else {
      OneMoreMove(reached, Do(reached, s, ms[0]), ms[1..], m);
      assert (ms + [m])[1..] == ms[1..] + [m];
    }
  }

  /** The wait under an arbitrary scheduler: its moves are a schedule that ends when the collector has one
      message per worker.  The errors are the timeouts in some order, and success is reported exactly if
      there was none. */
  method WaitForAll(reached: seq<bool>) returns (ok: bool, errs: seq<nat>, ghost moves: seq<Move>)
    ensures multiset(errs) == multiset(TimedOut(reached))
    ensures ok <==> forall w: nat :: w < |reached| ==> reached[w]
    ensures ValidSchedule(reached, Start(|reached|), moves)
    ensures Run(reached, Start(|reached|), moves).errs == errs
    ensures Run(reached, Start(|reached|), moves).received == |reached|
  {
    var n := |reached|;
    var unsent: set<nat>, errChan: seq<nat> := Workers(n), [];
    var doneChan: nat, received: nat := 0, 0;
    errs, moves := [], [];
    NobodyBlocks(reached, moves);
    while received < n
      invariant ValidSchedule(reached, Start(n), moves)
      invariant Run(reached, Start(n), moves) == State(unsent, errChan, doneChan, errs, received)
      invariant forall w <- unsent :: w < n && HasRoom(reached, State(unsent, errChan, doneChan, errs, received), w)
      invariant |moves| <= 2 * n && received <= n
      decreases 2 * n - |moves|
    {
      ghost var move: Move;
      NobodyBlocks(reached, moves);
      if {
        case unsent != {} =>
          var w :| w in unsent;
          unsent, move := unsent - {w}, Send(w);
          if reached[w] {
            doneChan := doneChan + 1;
          } else {
            errChan := errChan + [w];
          }
        case errChan != [] =>
          errs := errs + [errChan[0]];
          errChan, received, move := errChan[1..], received + 1, TakeError;
        case doneChan > 0 =>
          doneChan, received, move := doneChan - 1, received + 1, TakeDone;
      }
      OneMoreMove(reached, Start(n), moves, move);
      moves := moves + [move];
      NobodyBlocks(reached, moves);
    }
    NobodyBlocks(reached, moves);
    ok := errs == [];
    SomeErrorIff(reached, errs);
  }

  lemma SomeErrorIff(reached: seq<bool>, errs: seq<nat>)
    requires multiset(errs) == multiset(TimedOut(reached))
    ensures errs == [] <==> forall w: nat :: w < |reached| ==> reached[w]
  {
    if errs != [] {
      assert errs[0] in multiset(errs);
      assert errs[0] in TimedOut(reached);
    }
    forall w: nat | w < |reached| && !reached[w] ensures errs != [] {
      assert w in TimedOut(reached);
      assert w in multiset(errs);
    }
  }
}
