// The power reference count with its delayed switch-off (rknpu_drv.c) and the
// command-line references that share it (rknpu_debugger.c).
//
// References are tokens. They are held by users between get and put, by the
// command line, by the delayed work from the moment it is queued until it has
// dropped its reference, and by a call that still has to retry after a failed
// power_off. Command-line writes are serialised with each other, but not with
// anything else; power_on succeeds.
module Power {

  // The device fields under power_lock, and the hardware.
  datatype Regs = Regs(refcount: int, powered: bool, queued: bool)

  // ---------- The locked sections, as functions ----------

  function Get(r: Regs): Regs {
    Regs(r.refcount + 1, r.refcount + 1 == 1 || r.powered, r.queued)
  }

  // Drop a reference; `offOk` is what power_off would answer.
  function Drop(r: Regs, offOk: bool): Regs {
    if r.refcount <= 0 then r
    else if r.refcount > 1 then r.(refcount := r.refcount - 1)
    else if offOk then r.(refcount := 0, powered := false)
    else r
  }

  // power_off was called and failed: the caller must put again.
  predicate Fails(r: Regs, offOk: bool) {
    r.refcount == 1 && !offOk
  }

  // The last reference is handed to the delayed work instead of being dropped.
  function DropDelayed(r: Regs): Regs {
    if r.refcount == 1 then r.(queued := true)
    else if r.refcount > 0 then r.(refcount := r.refcount - 1)
    else r
  }

  // ---------- The driver ----------

  class PowerManager {
    var refcount: int
    var powered: bool
    var queued: bool
    var delay: nat  // power_put_delay, in milliseconds

    ghost function Abs(): Regs
      reads this
    {
      Regs(refcount, powered, queued)
    }

    constructor (delay: nat)
      ensures Abs() == Regs(0, false, false) && this.delay == delay
    {
      refcount, powered, queued := 0, false, false;
      this.delay := delay;
    }

    method PowerGet()
      modifies this`refcount, this`powered
      ensures Abs() == Get(old(Abs()))
      ensures refcount == old(refcount) + 1 && powered == (old(powered) || old(refcount) == 0)
    {
      refcount := refcount + 1;
      if refcount == 1 {
        powered := true;
      }
    }

    // The locked part of rknpu_power_put, and of the work function.
    method PutLocked(offOk: bool) returns (failed: bool)
      modifies this`refcount, this`powered
      ensures Abs() == Drop(old(Abs()), offOk)
      ensures failed <==> Fails(old(Abs()), offOk)
      // the count stays positive or falls by one; the last reference goes with the power
      ensures refcount == if old(refcount) <= 0 || failed then old(refcount) else old(refcount) - 1
      ensures failed <==> old(refcount) == 1 && !offOk
      ensures powered == (old(powered) && !(old(refcount) == 1 && offOk))
    {
      failed := false;
      if refcount > 0 {
        refcount := refcount - 1;
        if refcount == 0 {
          if offOk {
            powered := false;
          } else {
            failed := true;
            refcount := refcount + 1;
          }
        }
      }
    }

    // rknpu_power_put_delay up to the point where a failed power_off makes it
    // call itself again.
    method PutDelay(offOk: bool) returns (failed: bool)
      modifies this`refcount, this`powered, this`queued
      ensures Abs() == if delay == 0 then Drop(old(Abs()), offOk) else DropDelayed(old(Abs()))
      ensures failed <==> delay == 0 && Fails(old(Abs()), offOk)
      // with a delay nothing is switched off here, and only the last put queues the work
      ensures delay > 0 ==> powered == old(powered) && queued == (old(queued) || old(refcount) == 1)
      ensures delay > 0 ==> refcount == if old(refcount) <= 1 then old(refcount) else old(refcount) - 1
    {
      if delay == 0 {
        failed := PutLocked(offOk);
        return;
      }
      if refcount == 1 {
        queued := true;
      } else if refcount > 0 {
        refcount := refcount - 1;
      }
      failed := false;
    }
  }

  // ---------- All callers together ----------

  // Where the one writer of the power node stands.
  datatype Writer =
    | Rest
    | OnCounted      // cmdline count raised, power_get to come
    | OffChecked     // cmdline count lowered by the test of "off"
    | OffSubtracted  // the remaining command-line references taken off the count
    | OffCleared     // cmdline count zeroed, power_put to come

  datatype State = State(regs: Regs, users: nat, cmdline: int, writer: Writer, firing: bool, retries: nat)

  datatype Event =
    | UserGet
    | UserPut(offOk: bool)
    | UserPutDelay(zero: bool, offOk: bool)  // `zero`: power_put_delay is 0 just now
    | Fire                                   // the delayed work starts
    | Work(offOk: bool)                      // its locked section
    | Retry(zero: bool, offOk: bool)         // the owed put_delay after a failure
    | On
    | OnGet
    | Off
    | OffSubtract
    | OffClear
    | OffPut(offOk: bool)

  function Boot(): State {
    State(Regs(0, false, false), 0, 0, Rest, false, 0)
  }

  predicate Enabled(s: State, e: Event) {
    match e
    case UserGet => true
    case UserPut(_) => s.users > 0
    case UserPutDelay(_, _) => s.users > 0
    case Fire => s.regs.queued && !s.firing
    case Work(_) => s.firing
    case Retry(_, _) => s.retries > 0
    case On => s.writer == Rest
    case OnGet => s.writer == OnCounted
    case Off => s.writer == Rest
    case OffSubtract => s.writer == OffChecked
    case OffClear => s.writer == OffSubtracted
    case OffPut(_) => s.writer == OffCleared
  }

  function Dropped(s: State, offOk: bool): State {
    s.(regs := Drop(s.regs, offOk), retries := if Fails(s.regs, offOk) then s.retries + 1 else s.retries)
  }

  function DroppedDelayed(s: State, zero: bool, offOk: bool): State {
    if zero then Dropped(s, offOk) else s.(regs := DropDelayed(s.regs))
  }

  function Step(s: State, e: Event): State
    requires Enabled(s, e)
  {
    match e
    case UserGet => s.(regs := Get(s.regs), users := s.users + 1)
    case UserPut(offOk) => Dropped(s.(users := s.users - 1), offOk)
    case UserPutDelay(zero, offOk) => DroppedDelayed(s.(users := s.users - 1), zero, offOk)
    case Fire => s.(regs := s.regs.(queued := false), firing := true)
    case Work(offOk) => Dropped(s.(firing := false), offOk)
    case Retry(zero, offOk) => DroppedDelayed(s.(retries := s.retries - 1), zero, offOk)
    case On => s.(cmdline := s.cmdline + 1, writer := OnCounted)
    case OnGet => s.(regs := Get(s.regs), writer := Rest)
    case Off =>
      if s.regs.refcount > 0 && s.cmdline > 0 then s.(cmdline := s.cmdline - 1, writer := OffChecked) else s
    case OffSubtract => s.(regs := s.regs.(refcount := s.regs.refcount - s.cmdline), writer := OffSubtracted)
    case OffClear => s.(cmdline := 0, writer := OffCleared)
    case OffPut(offOk) => Dropped(s.(writer := Rest), offOk)
  }

  // The references the command line holds.
  function CmdTokens(s: State): int {
    match s.writer
    case Rest => s.cmdline
    case OnCounted => s.cmdline - 1
    case OffChecked => s.cmdline + 1
    case _ => 1
  }

  // Outstanding attempts to switch off: queued, firing, or owed again.
  function OffTokens(s: State): nat {
    (if s.regs.queued then 1 else 0) + (if s.firing then 1 else 0) + s.retries
  }

  // Every reference is accounted for, there is at most one outstanding attempt
  // to switch off, and the hardware is on exactly while the count is positive.
  ghost predicate Tokens(s: State) {
    && s.regs.refcount == s.users + CmdTokens(s) + OffTokens(s)
    && OffTokens(s) <= 1
    && (if s.regs.refcount > 0 then s.regs.powered else !s.regs.powered)
    && s.cmdline >= 0 && (s.writer == OnCounted ==> s.cmdline > 0) && (s.writer == OffCleared ==> s.cmdline == 0)
  }

  // A state in which one reference is about to be dropped.
  ghost predicate Owes(s: State) {
    && s.regs.refcount == s.users + CmdTokens(s) + OffTokens(s) + 1
    && OffTokens(s) <= 1 && CmdTokens(s) >= 0
    && s.regs.powered && s.cmdline >= 0
    && (s.writer == OnCounted ==> s.cmdline > 0) && (s.writer == OffCleared ==> s.cmdline == 0)
  }

  lemma {:induction false} DropPays(s: State, zero: bool, offOk: bool)
    requires Owes(s)
    ensures Tokens(Dropped(s, offOk)) && Tokens(DroppedDelayed(s, zero, offOk))
  {
  }

  predicate Drops(e: Event) {
    e.UserPut? || e.UserPutDelay? || e.Work? || e.Retry? || e.OffPut?
  }

  // The state once the event has given its token up.
  function Released(s: State, e: Event): State
    requires Enabled(s, e) && Drops(e)
  {
    match e
    case UserPut(_) => s.(users := s.users - 1)
    case UserPutDelay(_, _) => s.(users := s.users - 1)
    case Work(_) => s.(firing := false)
    case Retry(_, _) => s.(retries := s.retries - 1)
    case OffPut(_) => s.(writer := Rest)
  }

  lemma {:induction false} ReleasedOwes(s: State, e: Event)
    requires Tokens(s) && Enabled(s, e) && Drops(e)
    ensures Owes(Released(s, e))
  {
  }

  lemma {:induction false} DroppingKeepsTokens(s: State, e: Event)
    requires Tokens(s) && Enabled(s, e) && Drops(e)
    ensures Tokens(Step(s, e))
  {
    hide Dropped, DroppedDelayed, Tokens, Owes;
    ReleasedOwes(s, e);
    var zero := if e.UserPutDelay? || e.Retry? then e.zero else true;
    DropPays(Released(s, e), zero, e.offOk);
  }

  lemma {:induction false} OthersKeepTokens(s: State, e: Event)
    requires Tokens(s) && Enabled(s, e) && !Drops(e)
    ensures Tokens(Step(s, e))
  {
    hide Dropped, DroppedDelayed;
  }

  lemma {:induction false} StepKeepsTokens(s: State, e: Event)
    requires Tokens(s) && Enabled(s, e)
    ensures Tokens(Step(s, e))
  {
    hide Tokens, Step, Enabled;
    if Drops(e) {
      DroppingKeepsTokens(s, e);
    } else {
      OthersKeepTokens(s, e);
    }
  }

  // The calls of queue_delayed_work: a delayed put that finds one reference.
  predicate Queues(s: State, e: Event) {
    (e.UserPutDelay? || e.Retry?) && !e.zero && s.regs.refcount == 1
  }

  // The work is neither queued nor running when it is queued, so no call of
  // queue_delayed_work is lost; and nothing else queues it.
  lemma {:induction false} QueueingTakesEffect(s: State, e: Event)
    requires Tokens(s) && Enabled(s, e)
    ensures Queues(s, e) ==> !s.regs.queued && !s.firing && Step(s, e).regs.queued && OffTokens(Step(s, e)) == 1
    ensures Step(s, e).regs.queued ==> s.regs.queued || Queues(s, e)
  {
    if Queues(s, e) {
      assert s.regs.refcount == s.users + CmdTokens(s) + OffTokens(s);
      assert CmdTokens(s) >= 0;
    }
  }

  predicate Legal(s: State, es: seq<Event>)
    decreases |es|
  {
    es == [] || (Enabled(s, es[0]) && Legal(Step(s, es[0]), es[1..]))
  }

  function Run(s: State, es: seq<Event>): State
    requires Legal(s, es)
    decreases |es|
  {
    if es == [] then s else Run(Step(s, es[0]), es[1..])
  }

  // In every reachable state of every interleaving.
  lemma {:induction false} RunKeepsTokens(s: State, es: seq<Event>)
    requires Tokens(s) && Legal(s, es)
    ensures Tokens(Run(s, es))
    decreases |es|
  {
    hide Tokens, Step, Enabled;
    if es != [] {
      StepKeepsTokens(s, es[0]);
      RunKeepsTokens(Step(s, es[0]), es[1..]);
    }
  }

  lemma {:induction false} BootHasTokens()
    ensures Tokens(Boot())
  {
  }

  // The states that some interleaving leads to from power-up.
  ghost predicate Reachable(s: State) {
    exists es :: Legal(Boot(), es) && Run(Boot(), es) == s
  }

  lemma {:induction false} ReachableHasTokens(s: State)
    requires Reachable(s)
    ensures Tokens(s)
  {
    hide Run, Legal, Tokens, Boot;
    var es :| Legal(Boot(), es) && Run(Boot(), es) == s;
    BootHasTokens();
    RunKeepsTokens(Boot(), es);
  }

  // Safety: between its get and its put a user finds the hardware on, and the
  // count covers all users and the command line.
  lemma {:induction false} PoweredWhileUsed(s: State)
    requires Reachable(s) && s.users > 0
    ensures s.regs.powered && s.regs.refcount >= s.users
  {
    hide Reachable;
    ReachableHasTokens(s);
  }

  ghost predicate Unused(s: State) {
    s.users == 0 && s.cmdline == 0 && s.writer == Rest
  }

  // No leak: once users and command-line references are gone, either all is off
  // and the count is 0, or exactly one attempt to switch off is outstanding and
  // holds the only reference.
  lemma {:induction false} UnusedIsOffOrGoingOff(s: State)
    requires Reachable(s) && Unused(s)
    ensures if OffTokens(s) == 0 then s.regs.refcount == 0 && !s.regs.powered
            else OffTokens(s) == 1 && s.regs.refcount == 1 && s.regs.powered
  {
    hide Reachable;
    ReachableHasTokens(s);
  }

  // How many steps the outstanding attempt still takes, and the next of them if
  // power_off answers well.
  function Attempt(s: State): nat {
    if s.firing then 1 else if s.regs.queued then 2 else if s.retries > 0 then 3 else 0
  }

  function NextAttempt(s: State): Event {
    if s.firing then Work(true) else if s.regs.queued then Fire else Retry(false, true)
  }

  lemma {:induction false} AttemptAdvances(s: State)
    requires Tokens(s) && Unused(s)
    ensures Attempt(s) > 0 ==>
              && Enabled(s, NextAttempt(s)) && Attempt(Step(s, NextAttempt(s))) == Attempt(s) - 1
              && Unused(Step(s, NextAttempt(s)))
    ensures Attempt(s) == 0 ==> s.regs == Regs(0, false, false) && OffTokens(s) == 0
  {
    if Attempt(s) > 0 {
      assert OffTokens(s) == 1 && s.regs.refcount == 1;
    } else {
      assert OffTokens(s) == 0 && s.regs.refcount == 0;
    }
  }

  ghost predicate SwitchOffSteps(es: seq<Event>) {
    forall e :: e in es ==> e == Retry(false, true) || e == Fire || e == Work(true)
  }

  // ... and the at most three steps of that attempt switch off.
  lemma {:induction false} UnusedCanSwitchOff(s: State) returns (es: seq<Event>)
    requires Tokens(s) && Unused(s)
    ensures |es| == Attempt(s) <= 3 && SwitchOffSteps(es) && Legal(s, es)
    ensures Run(s, es).regs == Regs(0, false, false) && Unused(Run(s, es)) && OffTokens(Run(s, es)) == 0
    decreases Attempt(s)
  {
    hide Run, Legal, Step, Enabled, Tokens, Unused, OffTokens;
    AttemptAdvances(s);
    if Attempt(s) == 0 {
      RunNone(s);
      return [];
    }
    var e := NextAttempt(s);
    StepKeepsTokens(s, e);
    var rest := UnusedCanSwitchOff(Step(s, e));
    RunFirst(s, e, rest);
    es := [e] + rest;
  }

  // ---------- The power node ----------

  lemma {:induction false} FourSteps(s: State, a: Event, b: Event, c: Event, d: Event)
    requires Enabled(s, a) && Enabled(Step(s, a), b) && Enabled(Step(Step(s, a), b), c)
    requires Enabled(Step(Step(Step(s, a), b), c), d)
    ensures Legal(s, [a, b, c, d]) && Run(s, [a, b, c, d]) == Step(Step(Step(Step(s, a), b), c), d)
  {
    hide Step, Enabled;
    var s3 := Step(Step(Step(s, a), b), c);
    RunNone(Step(s3, d));
    RunFirst(s3, d, []);
    RunFirst(Step(Step(s, a), b), c, [d]);
    RunFirst(Step(s, a), b, [c, d]);
    RunFirst(s, a, [b, c, d]);
    assert [a] + ([b] + ([c] + ([d] + []))) == [a, b, c, d];
  }

  // "off" gives all references of the command line back at once: those that stay
  // are the users' and the outstanding attempt's, unless power_off fails, and
  // then the one reference left is owed again. Nobody else's tokens move.
  lemma {:induction false} OffGivesBack(s: State, offOk: bool)
    requires Tokens(s) && s.writer == Rest && s.cmdline > 0
    ensures Legal(s, [Off, OffSubtract, OffClear, OffPut(offOk)])
    ensures var s' := Run(s, [Off, OffSubtract, OffClear, OffPut(offOk)]);
            var last := s.users + OffTokens(s) == 0;
            && s'.cmdline == 0 && s'.writer == Rest && s'.users == s.users && s'.firing == s.firing
            && s'.regs.queued == s.regs.queued
            && s'.regs.refcount == (if last && !offOk then 1 else s.regs.refcount - s.cmdline)
            && s'.regs.powered == !(last && offOk)
            && s'.retries == s.retries + (if last && !offOk then 1 else 0)
  {
    hide Run, Legal;
    FourSteps(s, Off, OffSubtract, OffClear, OffPut(offOk));
  }

  // With nobody else using the device, "off" switches it off.
  lemma {:induction false} OffSwitchesOff(s: State)
    requires Tokens(s) && s.writer == Rest && s.cmdline > 0 && s.users == 0 && OffTokens(s) == 0
    ensures Legal(s, [Off, OffSubtract, OffClear, OffPut(true)])
    ensures Run(s, [Off, OffSubtract, OffClear, OffPut(true)]).regs == Regs(0, false, false)
  {
    hide Run, Legal;
    OffGivesBack(s, true);
  }

  // Without a command-line reference "off" does nothing.
  lemma {:induction false} OffWithoutOn(s: State)
    requires Tokens(s) && s.writer == Rest && s.cmdline == 0
    ensures Enabled(s, Off) && Step(s, Off) == s
  {
  }

  // "on" takes one reference more, and the hardware is on.
  lemma {:induction false} OnTakesReference(s: State)
    requires Tokens(s) && s.writer == Rest
    ensures Legal(s, [On, OnGet])
    ensures var s' := Run(s, [On, OnGet]);
            && s'.cmdline == s.cmdline + 1 && s'.writer == Rest && s'.users == s.users
            && s'.regs.refcount == s.regs.refcount + 1 && s'.regs.powered
            && OffTokens(s') == OffTokens(s)
  {
    hide Run, Legal;
    var s1 := Step(s, On);
    RunNone(Step(s1, OnGet));
    RunFirst(s1, OnGet, []);
    assert [OnGet] + [] == [OnGet];
    RunFirst(s, On, [OnGet]);
    assert [On] + [OnGet] == [On, OnGet];
  }

  // A step of the outstanding attempt, with a good answer of power_off.
  predicate Attempts(e: Event) {
    e == Fire || e == Work(true) || (e.Retry? && e.offOk)
  }

  lemma {:induction false} AttemptDrops(s: State, e: Event)
    requires Tokens(s) && Unused(s) && Enabled(s, e) && Attempts(e)
    ensures Attempt(Step(s, e)) < Attempt(s) && Unused(Step(s, e))
  {
    assert s.regs.refcount == OffTokens(s) == 1;
  }

  // In whatever order and by whichever calls the attempt is carried out, while
  // nobody uses the device and power_off answers well, it ends after at most
  // three steps, and when no step of it is left all is off at count 0.
  lemma {:induction false} EveryAttemptSwitchesOff(s: State, es: seq<Event>)
    requires Tokens(s) && Unused(s) && Legal(s, es) && forall e :: e in es ==> Attempts(e)
    ensures |es| <= Attempt(s) <= 3 && Unused(Run(s, es))
    ensures (forall e :: Attempts(e) ==> !Enabled(Run(s, es), e)) ==>
              Run(s, es).regs == Regs(0, false, false) && OffTokens(Run(s, es)) == 0
    decreases |es|
  {
    hide Step, Enabled, Tokens, Unused, OffTokens;
    if es == [] {
      AttemptAdvances(s);
      assert Attempt(s) > 0 ==> Attempts(NextAttempt(s));
    } else {
      assert es[0] in es && forall e :: e in es[1..] ==> e in es;
      AttemptDrops(s, es[0]);
      StepKeepsTokens(s, es[0]);
      EveryAttemptSwitchesOff(Step(s, es[0]), es[1..]);
    }
  }

  lemma {:induction false} RunNone(s: State)
    ensures Legal(s, []) && Run(s, []) == s
  {
  }

  lemma {:induction false} RunFirst(s: State, e: Event, es: seq<Event>)
    requires Enabled(s, e) && Legal(Step(s, e), es)
    ensures Legal(s, [e] + es) && Run(s, [e] + es) == Run(Step(s, e), es)
  {
    assert ([e] + es)[1..] == es;
  }
}
