/** Concurrent fan-out: one goroutine per client, each calling, writing its own slot and
    signing off, in any interleaving. */
module FanOut {
  import opened Ordering
  import opened QueryLog

  datatype Result<+T> = Result(instance: string, outcome: Outcome<T>)

  /** Where a goroutine is: not yet called, called with an outcome in hand, slot written,
      signed off on the WaitGroup. */
  datatype Phase<+T> = Ready | Called(outcome: Outcome<T>) | Written | Finished

  /** `slots` is the shared result slice, None while still the zero value; `waiting` is the
      WaitGroup counter. */
  datatype State<+T> = State(phases: seq<Phase<T>>, slots: seq<Option<Result<T>>>, waiting: int)

  function Start<T>(n: nat): (s: State<T>)
  {
    State(seq(n, _ => Ready), seq(n, _ => None), n)
  }

  /** Goroutine `i` does its next action; a finished one does nothing. */
  function Step<T>(names: seq<string>, fn: string -> Outcome<T>, s: State<T>, i: nat): (s': State<T>)
    requires |s.phases| == |s.slots| == |names|
    ensures |s'.phases| == |s'.slots| == |names|
    ensures forall j | 0 <= j < |names| && j != i :: s'.slots[j] == s.slots[j] && s'.phases[j] == s.phases[j]
  {
    if i >= |names| then s
    else match s.phases[i]
      case Ready => s.(phases := s.phases[i := Called(fn(names[i]))])
      case Called(out) => s.(phases := s.phases[i := Written], slots := s.slots[i := Some(Result(names[i], out))])
      case Written => s.(phases := s.phases[i := Finished], waiting := s.waiting - 1)
      case Finished => s
  }

  /** An interleaving is any sequence of goroutine indices. */
  function Run<T>(names: seq<string>, fn: string -> Outcome<T>, schedule: seq<nat>): (s: State<T>)
    ensures |s.phases| == |s.slots| == |names|
  {
    if schedule == [] then Start(|names|)
    else Step(names, fn, Run(names, fn, schedule[..|schedule| - 1]), schedule[|schedule| - 1])
  }

  function Unfinished<T>(phases: seq<Phase<T>>): (n: nat)
  {
    if phases == [] then 0 else (if phases[0].Finished? then 0 else 1) + Unfinished(phases[1..])
  }

  /** Actions still to be done. */
  function Work<T>(phases: seq<Phase<T>>): (n: nat)
    ensures n == 0 <==> Unfinished(phases) == 0
  {
    if phases == [] then 0
    else (match phases[0] case Ready => 3 case Called(_) => 2 case Written => 1 case Finished => 0) + Work(phases[1..])
  }

  lemma {:induction false} CountsUpdate<T>(phases: seq<Phase<T>>, i: nat, p: Phase<T>)
    requires i < |phases|
    ensures Unfinished(phases[i := p]) == Unfinished(phases)
      - (if phases[i].Finished? then 0 else 1) + (if p.Finished? then 0 else 1)
    ensures Work(phases[i := p]) - Work(phases)
      == (match p case Ready => 3 case Called(_) => 2 case Written => 1 case Finished => 0)
       - (match phases[i] case Ready => 3 case Called(_) => 2 case Written => 1 case Finished => 0)
  {
    var q := phases[i := p];
    if i == 0 {
      assert q[1..] == phases[1..];
    } else {
      assert q[1..] == phases[1..][i - 1 := p];
      CountsUpdate(phases[1..], i - 1, p);
    }
  }

  /** Every slot is untouched until its own goroutine writes it, and then holds that client's
      name and outcome; the counter is the number of goroutines still running. */
  ghost predicate Consistent<T>(names: seq<string>, fn: string -> Outcome<T>, s: State<T>)
  {
    && |s.phases| == |s.slots| == |names|
    && s.waiting == Unfinished(s.phases)
    && forall i | 0 <= i < |names| ::
         match s.phases[i]
         case Ready => s.slots[i] == None
         case Called(out) => s.slots[i] == None && out == fn(names[i])
         case _ => s.slots[i] == Some(Result(names[i], fn(names[i])))
  }

  lemma {:induction false} StartCounts<T>(n: nat)
    ensures Unfinished(seq(n, _ => Phase<T>.Ready)) == n
  {
    if n > 0 {
      StartCounts<T>(n - 1);
      assert seq(n, _ => Phase<T>.Ready)[1..] == seq(n - 1, _ => Phase<T>.Ready);
    }
  }

  lemma {:induction false} StepConsistent<T>(names: seq<string>, fn: string -> Outcome<T>, s: State<T>, i: nat)
    requires Consistent(names, fn, s)
    ensures Consistent(names, fn, Step(names, fn, s, i))
    ensures Work(Step(names, fn, s, i).phases)
         == Work(s.phases) - if i < |names| && !s.phases[i].Finished? then 1 else 0
  {
    if i < |names| {
      CountsUpdate(s.phases, i, Step(names, fn, s, i).phases[i]);
      assert s.phases[i].Finished? || Step(names, fn, s, i).phases == s.phases[i := Step(names, fn, s, i).phases[i]];
    }
  }

  lemma {:induction false} UnfinishedZero<T>(phases: seq<Phase<T>>)
    ensures Unfinished(phases) == 0 <==> forall i | 0 <= i < |phases| :: phases[i].Finished?
  {
    if phases != [] {
      UnfinishedZero(phases[1..]);
      assert phases == [phases[0]] + phases[1..];
    }
  }

  function Answers<T>(names: seq<string>, fn: string -> Outcome<T>): (r: seq<Result<T>>)
    ensures |r| == |names| && forall i | 0 <= i < |names| :: r[i] == Result(names[i], fn(names[i]))
  {
    seq(|names|, i requires 0 <= i < |names| => Result(names[i], fn(names[i])))
  }

  /** Under every interleaving: the counter counts the running goroutines, and once Wait may
      return the slots hold, in client order, each client's name and outcome. */
  lemma {:induction false} EveryInterleaving<T>(names: seq<string>, fn: string -> Outcome<T>, schedule: seq<nat>)
    ensures var s := Run(names, fn, schedule);
            && Consistent(names, fn, s)
            && (s.waiting == 0 ==> forall i | 0 <= i < |names| :: s.slots[i] == Some(Answers(names, fn)[i]))
  {
    if schedule == [] {
      StartCounts<T>(|names|);
    } else {
      var n := |schedule| - 1;
      EveryInterleaving(names, fn, schedule[..n]);
      StepConsistent(names, fn, Run(names, fn, schedule[..n]), schedule[n]);
    }
    UnfinishedZero(Run(names, fn, schedule).phases);
  }

  /** Run the goroutines to completion, letting any unfinished one move at each turn. */
  method FanOut<T>(names: seq<string>, fn: string -> Outcome<T>) returns (results: seq<Result<T>>)
    ensures results == Answers(names, fn)
  {
    var s := Start<T>(|names|);
    StartCounts<T>(|names|);
    UnfinishedZero(s.phases);
    while s.waiting > 0
      invariant Consistent(names, fn, s)
      decreases Work(s.phases)
    {
      UnfinishedZero(s.phases);
      var i: nat :| i < |names| && !s.phases[i].Finished?;
      StepConsistent(names, fn, s, i);
      s := Step(names, fn, s, i);
    }
    UnfinishedZero(s.phases);
    results := seq(|names|, i requires 0 <= i < |names| && s.slots[i].Some? => s.slots[i].value);
  }
}
