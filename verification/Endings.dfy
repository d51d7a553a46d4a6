/** How listeners and sessions end: what ends them, and what they still do afterwards. */
module Endings {
  import opened Requests
  import opened Pipeline
  import opened Outputs
  import opened Guarantees

  // ---------------------------------------------------------------------------
  // A listener on a closed channel
  // ---------------------------------------------------------------------------

  /** How many messages the listener of a closed channel can have taken in the end: one more if it is reading. */
  function Quota(m: Member): nat {
    |m.taken| + if m.pc.Reading? then 1 else 0
  }

  lemma ClosedListenerStep(st: State, step: Step, c: nat)
    requires Enabled(st, step) && c < |st.members| && st.members[c].ch.closed
    ensures var m, m' := st.members[c], Next(st, step).members[c];
      m'.ch.closed && Quota(m') <= Quota(m) && m.taken <= m'.taken
  {
  }

  /**
   A listener does not start another read once its channel is closed: whatever is still queued, it takes at most
   the one message it was reading.
   */
  lemma {:induction false} ClosedListenerTakesNoMore(steps: seq<Step>, more: seq<Step>, c: nat)
    requires Runs(Init, steps + more) && Runs(Init, steps)
    requires c < |Run(Init, steps).members| && Run(Init, steps).members[c].ch.closed
    ensures c < |Run(Init, steps + more).members|
    ensures var m, m' := Run(Init, steps).members[c], Run(Init, steps + more).members[c];
      m'.ch.closed && Quota(m') <= Quota(m) && m.taken <= m'.taken
    decreases |more|
  {
    if more == [] {
      assert steps + more == steps;
    } else {
      var before, last := more[..|more| - 1], more[|more| - 1];
      assert (steps + more)[..|steps + more| - 1] == steps + before;
      ClosedListenerTakesNoMore(steps, before, c);
      ClosedListenerStep(Run(Init, steps + before), last, c);
    }
  }

  /** Once the last reference to a channel is gone nobody holds the channel again. */
  lemma ExpiredStaysExpired(st: State, step: Step, c: nat)
    requires Enabled(st, step) && c < |st.members| && st.members[c].owner < |st.sessions| && Expired(st, c)
    requires !(step.Spawn? && st.sessions[step.s].pc.chan == c)
    ensures Expired(Next(st, step), c)
  {
  }

  // ---------------------------------------------------------------------------
  // The end of a session
  // ---------------------------------------------------------------------------

  /** The session runs its cleanup, or has. */
  predicate Ended(st: State, s: nat) {
    Has(st, s) && (st.sessions[s].pc.Closing? || st.sessions[s].pc.Done?)
  }

  /** The peer hangs up, or sends a line that ends the session. */
  predicate EndsSession(st: State, step: Step, s: nat) {
    step == Hangup(s) ||
    (step.Receive? && step.s == s && Has(st, s) && Decide(Keys(st.rooms), st.sessions[s].subs.Keys, step.line).Leave?)
  }

  /** The session's own steps. */
  predicate IsOf(step: Step, s: nat) {
    match step
    case Receive(p, _) => p == s
    case Hangup(p) => p == s
    case CreateRoom(p) => p == s
    case Push(p) => p == s
    case Spawn(p) => p == s
    case Emplace(p) => p == s
    case Respond(p) => p == s
    case Acquire(p) => p == s
    case FanOne(p) => p == s
    case Unlock(p) => p == s
    case Reject(p) => p == s
    case CloseOne(p, _) => p == s
    case Finish(p) => p == s
    case _ => false
  }

  /** An ended session only cleans up: it reads, joins, posts and replies no more. */
  lemma EndedOnlyCleansUp(st: State, step: Step, s: nat)
    requires Ended(st, s) && Enabled(st, step) && IsOf(step, s)
    ensures step.CloseOne? || step.Finish?
  {
  }

  lemma ForegroundEndsIff(st: State, step: Step, s: nat)
    requires Enabled(st, step) && !Background(step)
    ensures Ended(Next(st, step), s) <==> Ended(st, s) || EndsSession(st, step, s)
  {
  }

  lemma StepEndsIff(st: State, step: Step, s: nat)
    requires Enabled(st, step)
    ensures Ended(Next(st, step), s) <==> Ended(st, s) || EndsSession(st, step, s)
  {
    if !Background(step) {
      ForegroundEndsIff(st, step, s);
    } else if Has(st, s) {
      BackgroundKeepsRequests(st, step, s);
    }
  }

  /** Some step of the schedule ends session `s`. */
  predicate EndsIn(steps: seq<Step>, s: nat)
    requires Runs(Init, steps)
    decreases |steps|
  {
    steps != [] &&
    (EndsIn(steps[..|steps| - 1], s) || EndsSession(Run(Init, steps[..|steps| - 1]), steps[|steps| - 1], s))
  }

  /**
   A session ends if and only if its peer hangs up or sends a line that leaves, whatever else happens: a refusal, a
   rejected message or a failed socket does not end it.
   */
  lemma {:induction false} SessionEndsIff(steps: seq<Step>, s: nat)
    requires Runs(Init, steps)
    ensures Ended(Run(Init, steps), s) <==> EndsIn(steps, s)
    decreases |steps|
  {
    if steps != [] {
      SessionEndsIff(steps[..|steps| - 1], s);
      StepEndsIff(Run(Init, steps[..|steps| - 1]), steps[|steps| - 1], s);
    }
  }

  /** After its end no line is served to a session. */
  lemma {:induction false} EndedIsServedNothing(steps: seq<Step>, more: seq<Step>, s: nat)
    requires Runs(Init, steps + more) && Runs(Init, steps) && Ended(Run(Init, steps), s)
    ensures Ended(Run(Init, steps + more), s) && LinesTo(steps + more, s) == LinesTo(steps, s)
    decreases |more|
  {
    if more == [] {
      assert steps + more == steps;
    } else {
      var before, last := more[..|more| - 1], more[|more| - 1];
      assert (steps + more)[..|steps + more| - 1] == steps + before;
      EndedIsServedNothing(steps, before, s);
      StepEndsIff(Run(Init, steps + before), last, s);
      assert !(last.Receive? && last.s == s);
      assert LinesTo(steps + before, s) + [] == LinesTo(steps + before, s);
    }
  }
}
