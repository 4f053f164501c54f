/** The plugin's wait loops: with the mainloop lock held, wait until a
    condition holds (an operation is done, the stream can take data), and give
    up as soon as the connection check finds the connection dead. */
module MainloopWait {

  /** What the loop sees on one turn: whether its condition holds, and whether
      the connection check (CHECK_DEAD_GOTO) passes. */
  datatype Poll = Poll(ready: bool, alive: bool)

  datatype WaitOutcome = Completed | FoundDead

  /** A turn on which the loop stops. */
  predicate Ends(p: Poll) {
    p.ready || !p.alive
  }

  /** The schedule of turns ends the loop: the mainloop eventually signals
      either the condition or a dead connection. */
  ghost predicate Terminates(polls: seq<Poll>) {
    exists i :: 0 <= i < |polls| && Ends(polls[i])
  }

  /** The condition is seen before the connection is seen dead. */
  ghost predicate Completes(polls: seq<Poll>) {
    exists i :: 0 <= i < |polls| && polls[i].ready && forall j :: 0 <= j < i ==> !Ends(polls[j])
  }

  /** A schedule cannot both complete at one turn and stop earlier at another. */
  lemma {:induction false} CompletesAtFirstEnd(polls: seq<Poll>, k: nat)
    requires k < |polls| && Ends(polls[k])
    requires forall j :: 0 <= j < k ==> !Ends(polls[j])
    ensures Completes(polls) <==> polls[k].ready
  {
  }

  /** One wait loop: until the condition holds, give up on a dead connection,
      otherwise wait for the next turn. */
  method Await(polls: seq<Poll>) returns (r: WaitOutcome)
    requires Terminates(polls)
    ensures r == Completed <==> Completes(polls)
  {
    var i := 0;
    while !polls[i].ready
      invariant 0 <= i < |polls|
      invariant exists k :: i <= k < |polls| && Ends(polls[k])
      invariant forall j :: 0 <= j < i ==> !Ends(polls[j])
      decreases |polls| - i
    {
      if !polls[i].alive {
        CompletesAtFirstEnd(polls, i);
        return FoundDead;
      }
      i := i + 1;
    }
    CompletesAtFirstEnd(polls, i);
    return Completed;
  }
}
