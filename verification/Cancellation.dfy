/** The cancellation token: cancellers race to record a reason under a lock, and waiters
    sleep on a notifier they arm before looking at the flag. Every shared access is its
    own step, so the results are for every interleaving of any number of both. */
module Cancellation {
  import opened Prelude

  type Actor = nat

  datatype Reason = User | Parent | Timeout | Runtime

  /** Where `cancel(reason)` stands. */
  datatype CancellerPhase =
    | Calling
    | Locked
    | Recorded
    | Flagged
    | Unlocked
    | Done(recorded: bool)

  /** Where `cancelled()` stands. An armed waiter remembers how many notifications it has
      seen; a later one will wake it. */
  datatype WaiterPhase =
    | Fresh
    | Armed(seen: nat)
    | Sleeping(seen: nat)
    | Reading
    | Finished(reason: Reason)

  datatype Canceller = Canceller(reason: Reason, phase: CancellerPhase)

  datatype Token = Token(
    flag: bool,
    reason: Option<Reason>,
    lock: Option<Actor>,
    notifications: nat,
    cancellers: map<Actor, Canceller>,
    waiters: map<Actor, WaiterPhase>)

  predicate Init(t: Token) {
    && !t.flag && t.reason.None? && t.lock.None? && t.notifications == 0
    && (forall c :: c in t.cancellers ==> t.cancellers[c].phase.Calling?)
    && (forall w :: w in t.waiters ==> t.waiters[w].Fresh?)
  }

  function SetCanceller(t: Token, c: Actor, phase: CancellerPhase): Token
    requires c in t.cancellers
  {
    t.(cancellers := t.cancellers[c := t.cancellers[c].(phase := phase)])
  }

  function SetWaiter(t: Token, w: Actor, phase: WaiterPhase): Token {
    t.(waiters := t.waiters[w := phase])
  }

  // ---------- Steps ----------

  /** A canceller's next step; nothing happens while another actor holds the lock. */
  function CancelStep(t: Token, c: Actor): Option<Token> {
    if c !in t.cancellers then None
    else
      match t.cancellers[c].phase
      case Calling =>
        if t.lock.Some? then None else Some(SetCanceller(t, c, Locked).(lock := Some(c)))
      case Locked =>
        if t.reason.None? then Some(SetCanceller(t, c, Recorded).(reason := Some(t.cancellers[c].reason)))
        else Some(SetCanceller(t, c, Done(false)).(lock := None))
      case Recorded => Some(SetCanceller(t, c, Flagged).(flag := true))
      case Flagged => Some(SetCanceller(t, c, Unlocked).(lock := None))
      case Unlocked => Some(SetCanceller(t, c, Done(true)).(notifications := t.notifications + 1))
      case Done(_) => None
  }

  /** A waiter's next step. It sleeps until a notification newer than the ones it has seen,
      and reads the reason only when the lock is free. */
  function WaitStep(t: Token, w: Actor): Option<Token> {
    if w !in t.waiters then None
    else
      match t.waiters[w]
      case Fresh => Some(SetWaiter(t, w, Armed(t.notifications)))
      case Armed(seen) => Some(SetWaiter(t, w, if t.flag then Reading else Sleeping(seen)))
      case Sleeping(seen) => if t.notifications > seen then Some(SetWaiter(t, w, Fresh)) else None
      case Reading =>
        if t.lock.Some? then None
        else Some(SetWaiter(t, w, Finished(if t.reason.Some? then t.reason.value else Runtime)))
      case Finished(_) => None
  }

  datatype Action = Cancels(actor: Actor) | Waits(actor: Actor)

  function Step(t: Token, a: Action): Option<Token> {
    match a
    case Cancels(c) => CancelStep(t, c)
    case Waits(w) => WaitStep(t, w)
  }

  predicate Behavior(tokens: seq<Token>, actions: seq<Action>) {
    && |tokens| == |actions| + 1
    && Init(tokens[0])
    && forall i :: 0 <= i < |actions| ==> Step(tokens[i], actions[i]) == Some(tokens[i + 1])
  }

  // ---------- What every step keeps ----------

  predicate Holds(phase: CancellerPhase) {
    phase.Locked? || phase.Recorded? || phase.Flagged?
  }

  /** The canceller whose reason was recorded. */
  predicate Won(phase: CancellerPhase) {
    phase.Recorded? || phase.Flagged? || phase.Unlocked? || phase == Done(true)
  }

  ghost predicate CancellersOk(t: Token) {
    && (forall c :: c in t.cancellers ==> (Holds(t.cancellers[c].phase) <==> t.lock == Some(c)))
    && (t.lock.Some? ==> t.lock.value in t.cancellers)
    && (forall c, d :: c in t.cancellers && d in t.cancellers && Won(t.cancellers[c].phase) && Won(t.cancellers[d].phase) ==> c == d)
    && (t.reason.Some? <==> exists c :: c in t.cancellers && Won(t.cancellers[c].phase))
    && (forall c :: c in t.cancellers && Won(t.cancellers[c].phase) ==> t.reason == Some(t.cancellers[c].reason))
    && (forall c :: c in t.cancellers && Won(t.cancellers[c].phase) ==> (t.flag <==> !t.cancellers[c].phase.Recorded?))
    && (t.flag ==> t.reason.Some?)
    && (forall c :: c in t.cancellers && t.cancellers[c].phase == Done(true) ==> t.notifications == 1)
    && (t.notifications > 0 ==> t.flag && exists c :: c in t.cancellers && t.cancellers[c].phase == Done(true))
    && (forall c :: c in t.cancellers && t.cancellers[c].phase == Done(false) ==> t.reason.Some?)
  }

  predicate WaiterOk(t: Token, phase: WaiterPhase) {
    match phase
    case Fresh => true
    case Armed(seen) => seen <= t.notifications && (seen > 0 ==> t.flag)
    case Sleeping(seen) => seen == 0
    case Reading => t.flag
    case Finished(reason) => t.flag && t.reason == Some(reason)
  }

  ghost predicate Inv(t: Token) {
    && CancellersOk(t)
    && forall w :: w in t.waiters ==> WaiterOk(t, t.waiters[w])
  }

  /** A recorded reason is never replaced, and neither the flag nor a result is taken back. */
  ghost predicate Permanent(t: Token, u: Token) {
    && (t.reason.Some? ==> u.reason == t.reason)
    && (t.flag ==> u.flag)
    && t.notifications <= u.notifications
    && (forall c :: c in t.cancellers ==> c in u.cancellers && u.cancellers[c].reason == t.cancellers[c].reason)
    && (forall c :: c in t.cancellers && Won(t.cancellers[c].phase) ==> Won(u.cancellers[c].phase))
    && (forall c :: c in t.cancellers && t.cancellers[c].phase.Done? ==> u.cancellers[c].phase == t.cancellers[c].phase)
    && (forall w :: w in t.waiters ==> w in u.waiters)
    && (forall w :: w in t.waiters && t.waiters[w].Finished? ==> u.waiters[w] == t.waiters[w])
  }

  lemma CancelStepKeeps(t: Token, c: Actor)
    requires Inv(t) && CancelStep(t, c).Some?
    ensures Inv(CancelStep(t, c).value) && Permanent(t, CancelStep(t, c).value)
  {
    var u := CancelStep(t, c).value;
    CancelStepKeepsCancellers(t, c);
    CancelStepIsPermanent(t, c);
    forall w | w in u.waiters ensures WaiterOk(u, u.waiters[w]) {
      assert WaiterOk(t, t.waiters[w]);
    }
  }

  lemma CancelStepIsPermanent(t: Token, c: Actor)
    requires CancellersOk(t) && CancelStep(t, c).Some?
    ensures var u := CancelStep(t, c).value;
      Permanent(t, u) && u.waiters == t.waiters
  {
    var u := CancelStep(t, c).value;
    var phase := t.cancellers[c].phase;
    assert u.cancellers == t.cancellers[c := u.cancellers[c]] && u.waiters == t.waiters;
    assert u.cancellers[c].reason == t.cancellers[c].reason;
    assert Won(phase) ==> Won(u.cancellers[c].phase);
    assert !phase.Done?;
  }

  /** Taking the lock, or finding a reason under it and letting go: nobody records. */
  lemma NobodyRecords(t: Token, u: Token, c: Actor)
    requires CancellersOk(t) && c in t.cancellers && CancelStep(t, c) == Some(u)
    requires t.cancellers[c].phase.Calling? || (t.cancellers[c].phase.Locked? && t.reason.Some?)
    ensures CancellersOk(u)
  {
    assert !Won(u.cancellers[c].phase) && !Won(t.cancellers[c].phase);
    if t.reason.Some? {
      var winner :| winner in t.cancellers && Won(t.cancellers[winner].phase);
      assert winner in u.cancellers && Won(u.cancellers[winner].phase);
    }
    if t.notifications > 0 {
      var notifier :| notifier in t.cancellers && t.cancellers[notifier].phase == Done(true);
      assert notifier in u.cancellers && u.cancellers[notifier].phase == Done(true);
    }
  }

  /** Recording, or going on after having recorded. */
  lemma TheWinnerGoesOn(t: Token, u: Token, c: Actor)
    requires CancellersOk(t) && c in t.cancellers && CancelStep(t, c) == Some(u)
    requires Won(t.cancellers[c].phase) || (t.cancellers[c].phase.Locked? && t.reason.None?)
    ensures CancellersOk(u)
  {
    assert Won(u.cancellers[c].phase);
  }

  lemma CancelStepKeepsCancellers(t: Token, c: Actor)
    requires CancellersOk(t) && CancelStep(t, c).Some?
    ensures CancellersOk(CancelStep(t, c).value)
  {
    var u, phase := CancelStep(t, c).value, t.cancellers[c].phase;
    if Won(phase) || (phase.Locked? && t.reason.None?) {
      TheWinnerGoesOn(t, u, c);
    } else {
      NobodyRecords(t, u, c);
    }
  }

  lemma WaitStepKeeps(t: Token, w: Actor)
    requires Inv(t) && WaitStep(t, w).Some?
    ensures Inv(WaitStep(t, w).value) && Permanent(t, WaitStep(t, w).value)
  {
    var u := WaitStep(t, w).value;
    assert WaiterOk(t, t.waiters[w]);
    assert u == t.(waiters := u.waiters);
    assert CancellersOk(u) by {
      if t.reason.Some? {
        var winner :| winner in t.cancellers && Won(t.cancellers[winner].phase);
        assert winner in u.cancellers && Won(u.cancellers[winner].phase);
      }
      if t.notifications > 0 {
        var notifier :| notifier in t.cancellers && t.cancellers[notifier].phase == Done(true);
        assert notifier in u.cancellers && u.cancellers[notifier].phase == Done(true);
      }
    }
  }

  lemma StepKeeps(t: Token, a: Action)
    requires Inv(t) && Step(t, a).Some?
    ensures Inv(Step(t, a).value) && Permanent(t, Step(t, a).value)
  {
    match a {
      case Cancels(c) => CancelStepKeeps(t, c);
      case Waits(w) => WaitStepKeeps(t, w);
    }
  }

  lemma {:induction false} AlwaysInv(tokens: seq<Token>, actions: seq<Action>, i: nat)
    requires Behavior(tokens, actions) && i < |tokens|
    ensures Inv(tokens[i])
  {
    if i > 0 {
      AlwaysInv(tokens, actions, i - 1);
      assert Step(tokens[i - 1], actions[i - 1]) == Some(tokens[i - 1 + 1]);
      StepKeeps(tokens[i - 1], actions[i - 1]);
    }
  }

  lemma PermanentCompose(a: Token, b: Token, c: Token)
    requires Permanent(a, b) && Permanent(b, c)
    ensures Permanent(a, c)
  {
  }

  lemma {:induction false} PermanentChain(tokens: seq<Token>, i: nat, j: nat)
    requires i <= j < |tokens|
    requires forall k :: i <= k < j ==> Permanent(tokens[k], tokens[k + 1])
    ensures Permanent(tokens[i], tokens[j])
    decreases j
  {
    if i < j {
      PermanentChain(tokens, i, j - 1);
      assert Permanent(tokens[j - 1], tokens[j - 1 + 1]);
      PermanentCompose(tokens[i], tokens[j - 1], tokens[j]);
    }
  }

  lemma AlwaysPermanent(tokens: seq<Token>, actions: seq<Action>, i: nat, j: nat)
    requires Behavior(tokens, actions) && i <= j < |tokens|
    ensures Permanent(tokens[i], tokens[j])
  {
    forall k | i <= k < j ensures Permanent(tokens[k], tokens[k + 1]) {
      AlwaysInv(tokens, actions, k);
      assert Step(tokens[k], actions[k]) == Some(tokens[k + 1]);
      StepKeeps(tokens[k], actions[k]);
    }
    PermanentChain(tokens, i, j);
  }

  // ---------- Results ----------

  /** Every waiter that returns, in every interleaving, returns the reason of the one
      canceller that recorded first, and all waiters return the same one. */
  lemma WaitersReturnTheFirstReason(
    tokens: seq<Token>, actions: seq<Action>, i: nat, v: Actor, j: nat, w: Actor)
    requires Behavior(tokens, actions) && i <= j < |tokens|
    requires v in tokens[i].waiters && tokens[i].waiters[v].Finished?
    requires w in tokens[j].waiters && tokens[j].waiters[w].Finished?
    ensures tokens[j].waiters[w].reason == tokens[i].waiters[v].reason
    ensures exists c ::
        && c in tokens[i].cancellers && Won(tokens[i].cancellers[c].phase)
        && tokens[i].cancellers[c].reason == tokens[i].waiters[v].reason
  {
    AlwaysInv(tokens, actions, i);
    AlwaysInv(tokens, actions, j);
    AlwaysPermanent(tokens, actions, i, j);
    assert WaiterOk(tokens[i], tokens[i].waiters[v]) && WaiterOk(tokens[j], tokens[j].waiters[w]);
  }

  /** The canceller that records is the first to reach the record under the lock: it found
      no reason, and whoever comes later finds its. */
  lemma FirstToRecordWins(tokens: seq<Token>, actions: seq<Action>, i: nat, j: nat, c: Actor)
    requires Behavior(tokens, actions) && i < j < |tokens|
    requires actions[i] == Cancels(c) && c in tokens[i].cancellers
    requires tokens[i].cancellers[c].phase.Locked? && tokens[i].reason.None?
    ensures tokens[j].reason == Some(tokens[i].cancellers[c].reason)
    ensures forall d :: d in tokens[j].cancellers && Won(tokens[j].cancellers[d].phase) ==> d == c
  {
    AlwaysInv(tokens, actions, j);
    AlwaysPermanent(tokens, actions, i + 1, j);
    AlwaysPermanent(tokens, actions, i, i + 1);
    assert Step(tokens[i], actions[i]) == Some(tokens[i + 1]);
    assert Won(tokens[i + 1].cancellers[c].phase);
  }

  /** A waiter with nothing to wake it. */
  predicate Parked(t: Token, w: Actor) {
    w in t.waiters && t.waiters[w].Sleeping? && WaitStep(t, w).None?
  }

  /** A waiter is parked exactly while it sleeps and the recording canceller has not yet
      notified: once that `cancel` has returned, no waiter is. */
  lemma ParkedIffNotNotified(tokens: seq<Token>, actions: seq<Action>, i: nat, w: Actor)
    requires Behavior(tokens, actions) && i < |tokens| && w in tokens[i].waiters && tokens[i].waiters[w].Sleeping?
    ensures Parked(tokens[i], w) <==>
      !exists c :: c in tokens[i].cancellers && tokens[i].cancellers[c].phase == Done(true)
  {
    AlwaysInv(tokens, actions, i);
    assert WaiterOk(tokens[i], tokens[i].waiters[w]);
  }

  /** Up to so many steps of one waiter alone. */
  function Advance(t: Token, w: Actor, steps: nat): Token
    decreases steps
  {
    if steps == 0 then t
    else
      var next := WaitStep(t, w);
      if next.None? then t else Advance(next.value, w, steps - 1)
  }

  function StepsLeft(phase: WaiterPhase): nat {
    match phase
    case Sleeping(_) => 4
    case Fresh => 3
    case Armed(_) => 2
    case Reading => 1
    case Finished(_) => 0
  }

  /** Once the recording `cancel` has returned and the lock is free, any waiter, wherever it
      stands, finishes within four steps of its own, with the recorded reason. */
  lemma WaitersFinish(tokens: seq<Token>, actions: seq<Action>, i: nat, c: Actor, w: Actor)
    requires Behavior(tokens, actions) && i < |tokens|
    requires c in tokens[i].cancellers && tokens[i].cancellers[c].phase == Done(true)
    requires tokens[i].lock.None? && w in tokens[i].waiters
    ensures var end := Advance(tokens[i], w, 4);
      w in end.waiters && end.waiters[w] == Finished(tokens[i].cancellers[c].reason)
  {
    AlwaysInv(tokens, actions, i);
    assert WaiterOk(tokens[i], tokens[i].waiters[w]);
    FinishesWithin(tokens[i], tokens[i].cancellers[c].reason, w, 4);
  }

  predicate Notified(t: Token, reason: Reason) {
    t.flag && t.notifications == 1 && t.reason == Some(reason) && t.lock.None?
  }

  lemma {:induction false} FinishesWithin(t: Token, reason: Reason, w: Actor, steps: nat)
    requires Notified(t, reason)
    requires w in t.waiters && WaiterOk(t, t.waiters[w]) && StepsLeft(t.waiters[w]) <= steps
    ensures var end := Advance(t, w, steps);
      w in end.waiters && end.waiters[w] == Finished(reason)
    decreases steps
  {
    var next := WaitStep(t, w);
    if next.Some? {
      FinishesWithin(next.value, reason, w, steps - 1);
    }
  }

  /** Whoever holds the lock can always go on, and gives it up within three steps. */
  lemma LockIsReleased(tokens: seq<Token>, actions: seq<Action>, i: nat)
    requires Behavior(tokens, actions) && i < |tokens| && tokens[i].lock.Some?
    ensures var c := tokens[i].lock.value;
      var one := CancelStep(tokens[i], c);
      && one.Some?
      && (one.value.lock.Some? ==>
            var two := CancelStep(one.value, c);
            && two.Some?
            && (two.value.lock.Some? ==> CancelStep(two.value, c).Some? && CancelStep(two.value, c).value.lock.None?))
  {
    AlwaysInv(tokens, actions, i);
  }

  /** The guarantee is the recording canceller's alone: another `cancel` may return while a
      waiter is still parked, because it finds a reason recorded but not yet notified. */
  lemma LosingCancelMayReturnFirst() returns (tokens: seq<Token>, actions: seq<Action>)
    ensures Behavior(tokens, actions)
    ensures var last := tokens[|tokens| - 1];
      1 in last.cancellers && last.cancellers[1].phase == Done(false) && Parked(last, 2)
  {
    var t0 := Token(
      false, None, None, 0, map[0 := Canceller(User, Calling), 1 := Canceller(Parent, Calling)], map[2 := Fresh]);
    actions := [Waits(2), Waits(2), Cancels(0), Cancels(0), Cancels(0), Cancels(0), Cancels(1), Cancels(1)];
    var t1 := WaitStep(t0, 2).value;
    var t2 := WaitStep(t1, 2).value;
    var t3 := CancelStep(t2, 0).value;
    var t4 := CancelStep(t3, 0).value;
    var t5 := CancelStep(t4, 0).value;
    var t6 := CancelStep(t5, 0).value;
    var t7 := CancelStep(t6, 1).value;
    var t8 := CancelStep(t7, 1).value;
    tokens := [t0, t1, t2, t3, t4, t5, t6, t7, t8];
  }
}
