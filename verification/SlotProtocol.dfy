/** The `acquire` context manager as a state machine: tasks pass a semaphore and two counters. */
module SlotProtocol {
  import opened Options
  import opened SlidingWindow

  /** A task is named by a number, and its futures on both counters carry that number. */
  type Task = nat

  /** `gated` is false when the endpoint had no TPM counter at acquisition time. */
  datatype Token = Token(gated: bool, reserved: nat, at: real, settled: bool)

  datatype Phase =
    | Entered                  // holds a permit
    | RpmWait                  // suspended in the RPM counter
    | RpmPassed
    | TpmWait(reserve: nat)    // suspended in the TPM counter
    | Holding(token: Token)    // inside the `async with` body
    | Left                     // permit released

  datatype State = State(
    permits: nat,
    now: real,
    rpm: Option<Counter>,
    tpm: Option<Counter>,
    order: seq<Task>,          // tasks in order of entry
    phase: map<Task, Phase>,
    billed: seq<Event>)        // the cost of every settled token, oldest first

  /** A stretch of code between two suspension points: a fast-path admission and its charge are one
      step, being woken and charging are two. */
  datatype Step =
    | Tick(to: real)
    | SetRpm(limit: nat)
    | SetTpm(limit: nat)
    | Enter(task: Task)
    | RpmAcquire(task: Task)
    | RpmResume(task: Task)
    | TpmAcquire(task: Task, maxTokens: int)
    | TpmResume(task: Task)
    | Cancel(task: Task)       // a waiting task's future is cancelled
    | Abort(task: Task)        // the cancelled task runs its exception path
    | Settle(task: Task, tokens: int)
    | Leave(task: Task)

  function Start(permits: nat, now: real): State {
    State(permits, now, None, None, [], map[], [])
  }

  /** The tasks that hold one of the semaphore's permits. */
  ghost function Holders(s: State): set<Task> {
    set t | t in s.phase && s.phase[t] != Left
  }

  function FutureOf(c: Option<Counter>, t: Task): FutureState {
    if c.Some? && t in c.value.futures then c.value.futures[t] else Pending
  }

  /** Twice the tokens asked for, and never less than one. */
  function ProvisionalReserve(maxTokens: int): (reserve: nat)
    ensures reserve >= 1 && reserve >= 2 * maxTokens && (reserve == 1 || reserve == 2 * maxTokens)
  {
    if 2 * maxTokens > 1 then 2 * maxTokens else 1
  }

  ghost predicate Enabled(s: State, step: Step) {
    match step
    case Tick(to) => to >= s.now
    case SetRpm(_) => true
    case SetTpm(_) => true
    case Enter(t) => t !in s.phase && |Holders(s)| < s.permits
    case RpmAcquire(t) => t in s.phase && s.phase[t].Entered?
    case RpmResume(t) => t in s.phase && s.phase[t].RpmWait? && FutureOf(s.rpm, t).Resolved?
    case TpmAcquire(t, _) => t in s.phase && s.phase[t].RpmPassed?
    case TpmResume(t) => t in s.phase && s.phase[t].TpmWait? && FutureOf(s.tpm, t).Resolved?
    case Cancel(t) =>
      && t in s.phase
      && (s.phase[t].RpmWait? || s.phase[t].TpmWait?)
      && FutureOf(if s.phase[t].RpmWait? then s.rpm else s.tpm, t).Pending?
    case Abort(t) =>
      // the future was cancelled, or resolved and the task cancelled before it resumed
      && t in s.phase
      && (s.phase[t].RpmWait? || s.phase[t].TpmWait?)
      && !FutureOf(if s.phase[t].RpmWait? then s.rpm else s.tpm, t).Pending?
    case Settle(t, _) => t in s.phase && s.phase[t].Holding?
    case Leave(t) => t in s.phase && s.phase[t].Holding?
  }

  function MapCounter(c: Option<Counter>, f: Counter -> Counter): Option<Counter> {
    match c case None => None case Some(v) => Some(f(v))
  }

  function CancelFuture(c: Counter, t: Task): Counter {
    c.(futures := c.futures[t := Cancelled])
  }

  function Take(s: State, step: Step): State
    requires Enabled(s, step)
  {
    match step
    case Tick(to) => s.(now := to)
    case SetRpm(limit) =>
      s.(rpm := Some(if s.rpm.None? then Counter(limit, [], [], map[]) else SetLimit(s.rpm.value, limit, s.now)))
    case SetTpm(limit) =>
      s.(tpm := Some(if s.tpm.None? then Counter(limit, [], [], map[]) else SetLimit(s.tpm.value, limit, s.now)))
    case Enter(t) => s.(order := s.order + [t], phase := s.phase[t := Entered])
    case RpmAcquire(t) =>
      if s.rpm.None? then s.(phase := s.phase[t := RpmPassed])
      else
        var (c, admitted) := Acquire(s.rpm.value, 1, s.now, t);
        if admitted then s.(rpm := Some(Charge(c, 1, s.now)), phase := s.phase[t := RpmPassed])
        else s.(rpm := Some(c), phase := s.phase[t := RpmWait])
    case RpmResume(t) =>
      s.(rpm := MapCounter(s.rpm, (c: Counter) => Charge(c, 1, s.now)), phase := s.phase[t := RpmPassed])
    case TpmAcquire(t, maxTokens) =>
      if s.tpm.None? then s.(phase := s.phase[t := Holding(Token(false, 0, s.now, false))])
      else
        var reserve := ProvisionalReserve(maxTokens);
        var (c, admitted) := Acquire(s.tpm.value, reserve, s.now, t);
        if admitted then
          s.(tpm := Some(Charge(c, reserve, s.now)),
             phase := s.phase[t := Holding(Token(true, reserve, s.now, false))])
        else s.(tpm := Some(c), phase := s.phase[t := TpmWait(reserve)])
    case TpmResume(t) =>
      var reserve := s.phase[t].reserve;
      s.(tpm := MapCounter(s.tpm, (c: Counter) => Charge(c, reserve, s.now)),
         phase := s.phase[t := Holding(Token(true, reserve, s.now, false))])
    case Cancel(t) =>
      if s.phase[t].RpmWait? then s.(rpm := MapCounter(s.rpm, (c: Counter) => CancelFuture(c, t)))
      else s.(tpm := MapCounter(s.tpm, (c: Counter) => CancelFuture(c, t)))
    case Abort(t) =>
      if s.phase[t].RpmWait? then
        s.(rpm := MapCounter(s.rpm, (c: Counter) => Forget(c, 1, t)), phase := s.phase[t := Left])
      else
        var reserve := s.phase[t].reserve;
        s.(tpm := MapCounter(s.tpm, (c: Counter) => Forget(c, reserve, t)), phase := s.phase[t := Left])
    case Settle(t, tokens) => SettleToken(s, t, tokens)
    case Leave(t) =>
      var s1 := SettleToken(s, t, 0);
      s1.(phase := s1.phase[t := Left])
  }

  /** Only the first settlement of a token has an effect. */
  function SettleToken(s: State, t: Task, tokens: int): State
    requires t in s.phase && s.phase[t].Holding?
    ensures SettleToken(s, t, tokens).phase.Keys == s.phase.Keys
  {
    var token := s.phase[t].token;
    if token.settled then s
    else
      var s1 := s.(phase := s.phase[t := Holding(token.(settled := true))]);
      if !token.gated then s1
      else
        s1.(tpm := MapCounter(s.tpm, (c: Counter) => SettleOn(c, token.reserved, tokens, s.now)),
            billed := s.billed + (if tokens > 0 then [Event(s.now, tokens)] else []))
  }

  // ---- Runs ---------------------------------------------------------------

  /** Every step of `steps`, taken in order from `s`, was enabled. */
  ghost predicate Legal(s: State, steps: seq<Step>)
    decreases |steps|
  {
    |steps| > 0 ==> Enabled(s, steps[0]) && Legal(Take(s, steps[0]), steps[1..])
  }

  ghost function After(s: State, steps: seq<Step>): State
    requires Legal(s, steps)
    decreases |steps|
  {
    if |steps| == 0 then s else After(Take(s, steps[0]), steps[1..])
  }
}
