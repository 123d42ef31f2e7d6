/** The unattended loop at the bottom of the script: one iteration signs in,
    relays the result to the chat group with up to three attempts, and
    sleeps. Sleeps are events in a trace; the endless loop is one iteration
    repeated. */
module Scheduler {
  import opened Wrappers
  import opened Session

  /** Seconds between retries (`wait_time`). */
  const WaitTime: nat := 10
  /** Seconds between two sign-ins after a success. */
  const LongSleep: nat := 3 * 3600
  const MaxAttempts: nat := 3

  /** `send_message`: delivered iff the gateway's JSON answer carries
      `retcode` 0. The reply is the parsed `retcode` (None when the field is
      missing or not an integer), or Raised when the request or the parse
      raised. */
  function SendMessage(reply: Reply<Option<int>>): (delivered: bool)
    ensures delivered <==> reply == Returned(Some(0))
  {
    TryExcept(match reply
      case Raised => Raised
      case Returned(retcode) => Returned(retcode == Some(0)))
  }

  datatype Event = Send(groupId: int, message: string) | Sleep(seconds: nat)

  /** The events of send attempts n + 1 to 3: each failure is followed by a
      short sleep, and the first delivery ends the attempts. */
  function Attempts(groupId: int, message: string, replies: seq<Reply<Option<int>>>, n: nat): (t: seq<Event>)
    requires |replies| >= MaxAttempts && n <= MaxAttempts
    ensures n < MaxAttempts ==> t != [] && t[0] == Send(groupId, message)
    ensures |t| <= 2 * (MaxAttempts - n)
    ensures forall i :: 0 <= i < |t| ==> t[i] == Send(groupId, message) || t[i] == Sleep(WaitTime)
    decreases MaxAttempts - n
  {
    if n == MaxAttempts then []
    else if SendMessage(replies[n]) then [Send(groupId, message)]
    else [Send(groupId, message), Sleep(WaitTime)] + Attempts(groupId, message, replies, n + 1)
  }

  /** The events of one pass through the loop, given what `sign` returned and
      what the gateway answers to the next three sends. */
  function Iteration(signed: bool, groupId: int, message: string, replies: seq<Reply<Option<int>>>): (t: seq<Event>)
    requires |replies| >= MaxAttempts
    ensures !signed ==> t == [Sleep(WaitTime)]
    ensures signed ==> 2 <= |t| <= 2 * MaxAttempts + 1 && t[0] == Send(groupId, message) && t[|t| - 1] == Sleep(LongSleep)
    ensures forall i :: 0 <= i < |t| - 1 ==> t[i] != Sleep(LongSleep)
  {
    if signed then Attempts(groupId, message, replies, 0) + [Sleep(LongSleep)]
    else [Sleep(WaitTime)]
  }

  /** k failed attempts, each followed by its short sleep. */
  function Failures(groupId: int, message: string, k: nat): seq<Event> {
    if k == 0 then [] else [Send(groupId, message), Sleep(WaitTime)] + Failures(groupId, message, k - 1)
  }

  lemma {:induction false} FailuresCount(groupId: int, message: string, k: nat)
    ensures multiset(Failures(groupId, message, k))[Send(groupId, message)] == k
    ensures multiset(Failures(groupId, message, k))[Sleep(WaitTime)] == k
    ensures multiset(Failures(groupId, message, k))[Sleep(LongSleep)] == 0
  {
    if k > 0 {
      FailuresCount(groupId, message, k - 1);
    }
  }

  lemma {:induction false} AttemptsFrom(groupId: int, message: string, replies: seq<Reply<Option<int>>>, n: nat, i: nat)
    requires |replies| >= MaxAttempts && n <= i < MaxAttempts
    requires SendMessage(replies[i])
    requires forall j :: n <= j < i ==> !SendMessage(replies[j])
    ensures Attempts(groupId, message, replies, n) == Failures(groupId, message, i - n) + [Send(groupId, message)]
    decreases i - n
  {
    if n < i {
      AttemptsFrom(groupId, message, replies, n + 1, i);
    }
  }

  lemma {:induction false} AttemptsFromExhausted(groupId: int, message: string, replies: seq<Reply<Option<int>>>, n: nat)
    requires |replies| >= MaxAttempts && n <= MaxAttempts
    requires forall j :: n <= j < MaxAttempts ==> !SendMessage(replies[j])
    ensures Attempts(groupId, message, replies, n) == Failures(groupId, message, MaxAttempts - n)
    decreases MaxAttempts - n
  {
    if n < MaxAttempts {
      AttemptsFromExhausted(groupId, message, replies, n + 1);
    }
  }

  /** Sending stops at the first delivery: attempt i + 1 succeeds after i
      failures, each followed by a short sleep. */
  lemma SendsStopAtFirstDelivery(groupId: int, message: string, replies: seq<Reply<Option<int>>>, i: nat)
    requires |replies| >= MaxAttempts && i < MaxAttempts
    requires SendMessage(replies[i])
    requires forall j :: 0 <= j < i ==> !SendMessage(replies[j])
    ensures Attempts(groupId, message, replies, 0) == Failures(groupId, message, i) + [Send(groupId, message)]
  {
    AttemptsFrom(groupId, message, replies, 0, i);
  }

  /** Three failed sends give three attempts and three short sleeps, the last
      one after the third attempt, and no fourth attempt. */
  lemma SendsExhausted(groupId: int, message: string, replies: seq<Reply<Option<int>>>)
    requires |replies| >= MaxAttempts
    requires forall j :: 0 <= j < MaxAttempts ==> !SendMessage(replies[j])
    ensures Attempts(groupId, message, replies, 0) == Failures(groupId, message, MaxAttempts)
  {
    AttemptsFromExhausted(groupId, message, replies, 0);
  }

  lemma {:induction false} AttemptsCount(groupId: int, message: string, replies: seq<Reply<Option<int>>>, n: nat)
    requires |replies| >= MaxAttempts && n < MaxAttempts
    ensures var t := Attempts(groupId, message, replies, n);
      && 1 <= multiset(t)[Send(groupId, message)] <= MaxAttempts - n
      && multiset(t)[Sleep(LongSleep)] == 0
    decreases MaxAttempts - n
  {
    if !SendMessage(replies[n]) {
      var rest := Attempts(groupId, message, replies, n + 1);
      if n + 1 < MaxAttempts {
        AttemptsCount(groupId, message, replies, n + 1);
      }
      assert multiset(Attempts(groupId, message, replies, n))
          == multiset{Send(groupId, message), Sleep(WaitTime)} + multiset(rest);
    }
  }

  /** A failed sign-in gives exactly one short sleep and no send. A
      successful one gives between one and three sends and exactly one long
      sleep, at the end. */
  lemma IterationShape(signed: bool, groupId: int, message: string, replies: seq<Reply<Option<int>>>)
    requires |replies| >= MaxAttempts
    ensures var t := Iteration(signed, groupId, message, replies);
      && (!signed ==> t == [Sleep(WaitTime)])
      && (signed ==>
            && 1 <= multiset(t)[Send(groupId, message)] <= MaxAttempts
            && multiset(t)[Sleep(LongSleep)] == 1
            && t[|t| - 1] == Sleep(LongSleep))
  {
    if signed {
      var head := Attempts(groupId, message, replies, 0);
      AttemptsCount(groupId, message, replies, 0);
      assert multiset(head + [Sleep(LongSleep)]) == multiset(head) + multiset{Sleep(LongSleep)};
    }
  }

  /** Two failed cycles and then one whose first send is delivered: two short
      sleeps, one send, then the long sleep. */
  lemma FailTwiceThenSucceed(groupId: int, message: string, replies: seq<Reply<Option<int>>>)
    requires |replies| >= MaxAttempts && SendMessage(replies[0])
    ensures Iteration(false, groupId, message, replies) + Iteration(false, groupId, message, replies)
            + Iteration(true, groupId, message, replies)
            == [Sleep(WaitTime), Sleep(WaitTime), Send(groupId, message), Sleep(LongSleep)]
  {
  }

  /** One pass through the `while True` body after `sign` has returned. */
  method RunIteration(signed: bool, groupId: int, message: string, replies: seq<Reply<Option<int>>>)
    returns (trace: seq<Event>)
    requires |replies| >= MaxAttempts
    ensures trace == Iteration(signed, groupId, message, replies)
  {
    if signed {
      trace := [];
      var n := 1;
      while n <= MaxAttempts
        invariant 1 <= n <= MaxAttempts + 1
        invariant trace + Attempts(groupId, message, replies, n - 1) == Attempts(groupId, message, replies, 0)
      {
        if SendMessage(replies[n - 1]) {
          trace := trace + [Send(groupId, message)];
          break;
        } else {
          trace := trace + [Send(groupId, message), Sleep(WaitTime)];
          n := n + 1;
        }
      }
      trace := trace + [Sleep(LongSleep)];
    } else {
      trace := [Sleep(WaitTime)];
    }
  }

  /** The whole loop body: sign in with the object, and relay its stored
      result on success. */
  method LoopStep(sf: Simpfun, net: Network, groupId: int, replies: seq<Reply<Option<int>>>)
    returns (trace: seq<Event>)
    requires |replies| >= MaxAttempts
    modifies sf
    ensures sf.State() == Cycle(old(sf.State()), net).after
    ensures Cycle(old(sf.State()), net).ok ==>
      net.check.Returned? && trace == Iteration(true, groupId, net.check.value, replies)
    ensures !Cycle(old(sf.State()), net).ok ==> trace == [Sleep(WaitTime)]
  {
    ghost var before := sf.State();
    var signed := sf.Sign(net);
    var message := "";
    if signed {
      SignedCycle(before, net);
      message := sf.result.value;
    }
    trace := RunIteration(signed, groupId, message, replies);
  }
}
