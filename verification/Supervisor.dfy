/** The event loop of the container's PID 1 (`supervise` in src/linux/container.c) against a
    kernel that coalesces pending signals.

    SIGCHLD and the forwarded signals are blocked before the workload is forked, so a signal
    that arrives while the loop is busy stays pending; but any number of child exits leaves at
    most one SIGCHLD pending. Children are told apart by birth numbers, because a pid may be
    used again once its process has been reaped. */
module Supervisor {
  import opened Base

  datatype Status = Exited(code: nat) | Signaled(signal: nat)

  /** A child of PID 1; `exit` is set once it is a zombie. */
  datatype Child = Child(birth: nat, exit: Option<Status>)

  datatype Reaped = Reaped(pid: nat, birth: nat, status: Status)

  const SIGKILL := 9

  /** What PID 1 sends: to the workload's process group, or to every process of the container. */
  datatype Kill = ToGroup(signal: nat) | ToAll(signal: nat)

  datatype Pc =
    | Waiting             // in, or about to enter, sigwaitinfo
    | Reaping             // in the waitpid(WNOHANG) loop
    | Leaving             // the outer loop has ended; killing and waiting for the rest
    | Returned(code: nat)

  datatype State = State(
    children: map<nat, Child>,
    births: nat,               // birth number of the next child
    childPending: bool,        // SIGCHLD
    othersPending: set<nat>,   // the signals that are forwarded to the workload
    pc: Pc,
    workloadStatus: Option<Status>, // workload_exited and workload_status
    reaped: seq<Reaped>,       // what the reap loop has collected, oldest first
    sent: seq<Kill>)           // the signals sent, oldest first

  datatype Step =
    | ChildExits(pid: nat, status: Status)
    | Adopt(pid: nat, exit: Option<Status>) // a fork's child or an orphan, perhaps already dead
    | Arrives(signal: nat)
    | SpuriousChild
    | WaitChild
    | WaitOther(signal: nat)
    | WaitFails
    | ReapOne(pid: nat)
    | ReapNone
    | ReapRest(pid: nat)
    | Finish

  predicate IsZombie(s: State, pid: nat) {
    pid in s.children && s.children[pid].exit.Some?
  }

  ghost predicate NoZombie(s: State) {
    forall pid :: pid in s.children ==> s.children[pid].exit.None?
  }

  /** WIFEXITED and WIFSIGNALED folded into an exit code. */
  function Code(status: Status): nat {
    match status
    case Exited(code) => code
    case Signaled(signal) => 128 + signal
  }

  ghost predicate Enabled(s: State, step: Step) {
    match step
    case ChildExits(pid, _) => pid in s.children && s.children[pid].exit.None?
    case Adopt(pid, _) => pid !in s.children
    case Arrives(_) => true
    case SpuriousChild => true
    case WaitChild => s.pc == Waiting && s.childPending
    case WaitOther(signal) => s.pc == Waiting && signal in s.othersPending
    case WaitFails => s.pc == Waiting
    case ReapOne(pid) => s.pc == Reaping && IsZombie(s, pid)
    case ReapNone => s.pc == Reaping && NoZombie(s)
    case ReapRest(pid) => s.pc == Leaving && pid in s.children
    case Finish => s.pc == Leaving && s.children == map[] && s.workloadStatus.Some?
  }

  ghost function Next(s: State, step: Step, workload: nat): State
    requires Enabled(s, step)
  {
    match step
    case ChildExits(pid, status) =>
      s.(children := s.children[pid := s.children[pid].(exit := Some(status))], childPending := true)
    case Adopt(pid, exit) =>
      s.(children := s.children[pid := Child(s.births, exit)], births := s.births + 1,
         childPending := s.childPending || exit.Some?)
    case Arrives(signal) => s.(othersPending := s.othersPending + {signal})
    case SpuriousChild => s.(childPending := true)
    case WaitChild => s.(childPending := false, pc := Reaping)
    case WaitOther(signal) => s.(othersPending := s.othersPending - {signal}, sent := s.sent + [ToGroup(signal)])
    case WaitFails => s.(pc := Returned(125), sent := s.sent + [ToGroup(SIGKILL)])
    case ReapOne(pid) =>
      var Child(birth, exit) := s.children[pid];
      s.(children := s.children - {pid}, reaped := s.reaped + [Reaped(pid, birth, exit.value)],
         workloadStatus := if pid == workload then exit else s.workloadStatus)
    case ReapNone =>
      if s.workloadStatus.Some? then s.(pc := Leaving, sent := s.sent + [ToAll(SIGKILL)]) else s.(pc := Waiting)
    case ReapRest(pid) => s.(children := s.children - {pid})
    case Finish => s.(pc := Returned(Code(s.workloadStatus.value)))
  }

  /** Right after the fork: the workload is child number 0. */
  function Forked(workload: nat): State {
    State(map[workload := Child(0, None)], 1, false, {}, Waiting, None, [], [])
  }

  ghost predicate IsRun(states: seq<State>, steps: seq<Step>, workload: nat) {
    && |states| == |steps| + 1
    && states[0] == Forked(workload)
    && forall k :: 0 <= k < |steps| ==>
                     Enabled(states[k], steps[k]) && states[k + 1] == Next(states[k], steps[k], workload)
  }

  // ---------------------------------------------------------------- invariant

  /** The lost-wakeup argument: a zombie seen from sigwaitinfo has a SIGCHLD pending. */
  predicate WakeupOk(s: State) {
    s.pc == Waiting ==> s.childPending || forall pid :: pid in s.children ==> s.children[pid].exit.None?
  }

  predicate CollectedPid(reaped: seq<Reaped>, pid: nat) {
    exists k :: 0 <= k < |reaped| && reaped[k].pid == pid
  }

  /** The status collected last under a pid. */
  function LastStatus(reaped: seq<Reaped>, pid: nat): Option<Status> {
    if reaped == [] then None
    else if reaped[|reaped| - 1].pid == pid then Some(reaped[|reaped| - 1].status)
    else LastStatus(reaped[..|reaped| - 1], pid)
  }

  /** The workload keeps its pid until it is reaped; from then on its status is known and the
      loop no longer waits. */
  ghost predicate WorkloadOk(s: State, workload: nat) {
    && s.workloadStatus == LastStatus(s.reaped, workload)
    && (s.workloadStatus.None? ==> workload in s.children && s.children[workload].birth == 0)
    && (s.workloadStatus.Some? ==> exists k :: 0 <= k < |s.reaped| && FirstUnder(s.reaped, k, workload))
    && (s.pc == Waiting ==> s.workloadStatus.None?)
    && (s.pc == Leaving ==> s.workloadStatus.Some?)
  }

  /** Entry k is the workload itself: no earlier entry has its pid. */
  predicate FirstUnder(reaped: seq<Reaped>, k: nat, workload: nat) {
    k < |reaped| && reaped[k].pid == workload && reaped[k].birth == 0 && !CollectedPid(reaped[..k], workload)
  }

  /** Until the loop is left, every child ever seen is present or has been reaped once. */
  ghost predicate Conserved(s: State) {
    && (forall pid :: pid in s.children ==> s.children[pid].birth < s.births)
    && (forall k :: 0 <= k < |s.reaped| ==> s.reaped[k].birth < s.births)
    && (forall p, q :: p in s.children && q in s.children && p != q ==> s.children[p].birth != s.children[q].birth)
    && (forall j, k :: 0 <= j < k < |s.reaped| ==> s.reaped[j].birth != s.reaped[k].birth)
    && (forall p, k :: p in s.children && 0 <= k < |s.reaped| ==> s.children[p].birth != s.reaped[k].birth)
    && ((s.pc == Waiting || s.pc == Reaping) ==> forall birth: nat :: birth < s.births ==> Accounted(s, birth))
  }

  ghost predicate Accounted(s: State, birth: nat) {
    || (exists pid :: pid in s.children && s.children[pid].birth == birth)
    || (exists k :: 0 <= k < |s.reaped| && s.reaped[k].birth == birth)
  }

  lemma StepKeepsWakeup(s: State, step: Step, workload: nat)
    requires WakeupOk(s) && Enabled(s, step)
    ensures WakeupOk(Next(s, step, workload))
  {}

  lemma AdoptKeepsConserved(s: State, pid: nat, exit: Option<Status>, workload: nat)
    requires Conserved(s) && Enabled(s, Adopt(pid, exit))
    ensures Conserved(Next(s, Adopt(pid, exit), workload))
  {
    var t := Next(s, Adopt(pid, exit), workload);
    assert t.children[pid].birth == s.births;
    forall birth: nat | birth < s.births && Accounted(s, birth) ensures Accounted(t, birth) {
      if p :| p in s.children && s.children[p].birth == birth {
        assert p in t.children && t.children[p].birth == birth;
      }
    }
  }

  lemma ReapKeepsAccounted(s: State, pid: nat, workload: nat, birth: nat)
    requires Enabled(s, ReapOne(pid)) && Accounted(s, birth)
    ensures Accounted(Next(s, ReapOne(pid), workload), birth)
  {
    var t := Next(s, ReapOne(pid), workload);
    if k :| 0 <= k < |s.reaped| && s.reaped[k].birth == birth {
      assert t.reaped[k].birth == birth;
    } else {
      var p :| p in s.children && s.children[p].birth == birth;
      if p == pid { assert t.reaped[|s.reaped|].birth == birth; } else { assert p in t.children; }
    }
  }

  lemma ReapKeepsConserved(s: State, pid: nat, workload: nat)
    requires Conserved(s) && Enabled(s, ReapOne(pid))
    ensures Conserved(Next(s, ReapOne(pid), workload))
  {
    var t := Next(s, ReapOne(pid), workload);
    forall birth: nat | birth < s.births ensures Accounted(t, birth) {
      ReapKeepsAccounted(s, pid, workload, birth);
    }
  }

  lemma ExitKeepsConserved(s: State, pid: nat, status: Status, workload: nat)
    requires Conserved(s) && Enabled(s, ChildExits(pid, status))
    ensures Conserved(Next(s, ChildExits(pid, status), workload))
  {
    var t := Next(s, ChildExits(pid, status), workload);
    forall birth: nat | Accounted(s, birth) ensures Accounted(t, birth) {
      if p :| p in s.children && s.children[p].birth == birth {
        assert p in t.children && t.children[p].birth == birth;
      }
    }
  }

  lemma StepKeepsConserved(s: State, step: Step, workload: nat)
    requires Conserved(s) && Enabled(s, step)
    ensures Conserved(Next(s, step, workload))
  {
    match step
    case ChildExits(pid, status) => ExitKeepsConserved(s, pid, status, workload);
    case Adopt(pid, exit) => AdoptKeepsConserved(s, pid, exit, workload);
    case ReapOne(pid) => ReapKeepsConserved(s, pid, workload);
    case _ =>
      var t := Next(s, step, workload);
      assert forall birth: nat :: Accounted(s, birth) && s.pc != Leaving ==> Accounted(t, birth);
  }

  lemma FirstStaysFirst(reaped: seq<Reaped>, entry: Reaped, k: nat, workload: nat)
    requires FirstUnder(reaped, k, workload)
    ensures FirstUnder(reaped + [entry], k, workload)
  {
    assert (reaped + [entry])[..k] == reaped[..k];
  }

  lemma NewFirst(reaped: seq<Reaped>, entry: Reaped, workload: nat)
    requires LastStatus(reaped, workload).None? && entry.pid == workload && entry.birth == 0
    ensures FirstUnder(reaped + [entry], |reaped|, workload)
  {
    NeverCollected(reaped, workload);
    assert (reaped + [entry])[..|reaped|] == reaped;
  }

  lemma ReapKeepsWorkload(s: State, pid: nat, workload: nat)
    requires WorkloadOk(s, workload) && Enabled(s, ReapOne(pid))
    ensures WorkloadOk(Next(s, ReapOne(pid), workload), workload)
  {
    var t := Next(s, ReapOne(pid), workload);
    var entry := Reaped(pid, s.children[pid].birth, s.children[pid].exit.value);
    assert t.reaped[..|t.reaped| - 1] == s.reaped;
    if s.workloadStatus.Some? {
      var k :| 0 <= k < |s.reaped| && FirstUnder(s.reaped, k, workload);
      FirstStaysFirst(s.reaped, entry, k, workload);
    } else if pid == workload {
      NewFirst(s.reaped, entry, workload);
    }
  }

  lemma {:induction false} NeverCollected(reaped: seq<Reaped>, pid: nat)
    ensures LastStatus(reaped, pid).None? <==> !CollectedPid(reaped, pid)
  {
    if reaped != [] {
      var shorter := reaped[..|reaped| - 1];
      NeverCollected(shorter, pid);
      if k :| 0 <= k < |shorter| && shorter[k].pid == pid {
        assert reaped[k].pid == pid;
      }
      if k :| 0 <= k < |reaped| && reaped[k].pid == pid {
        assert k == |reaped| - 1 || shorter[k].pid == pid;
      }
    }
  }

  lemma StepKeepsWorkload(s: State, step: Step, workload: nat)
    requires WorkloadOk(s, workload) && Enabled(s, step)
    ensures WorkloadOk(Next(s, step, workload), workload)
  {
    if step.ReapOne? {
      ReapKeepsWorkload(s, step.pid, workload);
    }
  }

  lemma {:induction false} RunKeepsInv(states: seq<State>, steps: seq<Step>, workload: nat, k: nat)
    requires IsRun(states, steps, workload) && k < |states|
    ensures WakeupOk(states[k]) && WorkloadOk(states[k], workload) && Conserved(states[k])
  {
    if k == 0 {
      assert workload in states[0].children;
    } else {
      RunKeepsInv(states, steps, workload, k - 1);
      StepKeepsWakeup(states[k - 1], steps[k - 1], workload);
      StepKeepsConserved(states[k - 1], steps[k - 1], workload);
      StepKeepsWorkload(states[k - 1], steps[k - 1], workload);
    }
  }

  // ---------------------------------------------------------------- theorems

  /** sigwaitinfo would sleep. */
  predicate Blocked(s: State) {
    s.pc == Waiting && !s.childPending && s.othersPending == {}
  }

  /** Whenever the supervisor sleeps there is no unreaped child, the workload is still
      running, and every child that ever exited has been collected exactly once. */
  lemma NoExitIsLost(states: seq<State>, steps: seq<Step>, workload: nat, k: nat)
    requires IsRun(states, steps, workload) && k < |states| && Blocked(states[k])
    ensures NoZombie(states[k])
    ensures workload in states[k].children && states[k].children[workload].birth == 0
    ensures forall birth: nat :: birth < states[k].births ==> Accounted(states[k], birth)
    ensures forall i, j :: 0 <= i < j < |states[k].reaped| ==> states[k].reaped[i].birth != states[k].reaped[j].birth
  {
    RunKeepsInv(states, steps, workload, k);
  }

  /** The loop is over exactly when the workload itself has been reaped: before that it waits
      or reaps, afterwards it never waits again. */
  lemma LoopEndsWithWorkload(states: seq<State>, steps: seq<Step>, workload: nat, k: nat)
    requires IsRun(states, steps, workload) && k < |states|
    ensures states[k].pc == Leaving ==> exists i :: 0 <= i < |states[k].reaped| && states[k].reaped[i].birth == 0
    ensures states[k].pc == Waiting ==> forall i :: 0 <= i < |states[k].reaped| ==> states[k].reaped[i].birth != 0
  {
    RunKeepsInv(states, steps, workload, k);
  }

  /** The pid of the workload is not used again by another reaped child. */
  predicate PidNotReused(s: State, workload: nat) {
    forall i, j :: 0 <= i < j < |s.reaped| ==> s.reaped[i].pid != workload || s.reaped[j].pid != workload
  }

  /** The entry whose status PID 1 returns: the last one under the workload's pid. */
  predicate LastUnder(reaped: seq<Reaped>, pid: nat, i: nat) {
    i < |reaped| && reaped[i].pid == pid && forall j :: i < j < |reaped| ==> reaped[j].pid != pid
  }

  /** PID 1 returns the exit code of one child, or 128 and the signal that killed it, and that
      child is the workload exactly when the workload's pid did not come back while the loop was
      reaping. */
  lemma ReportsWorkloadStatus(states: seq<State>, steps: seq<Step>, workload: nat, k: nat, i: nat, last: nat)
    requires IsRun(states, steps, workload) && k < |steps| && steps[k] == Finish
    requires i < |states[k].reaped| && states[k].reaped[i].birth == 0
    requires LastUnder(states[k].reaped, workload, last)
    ensures match states[k].reaped[last].status
            case Exited(code) => states[k + 1].pc == Returned(code)
            case Signaled(signal) => states[k + 1].pc == Returned(128 + signal)
    ensures last == i <==> PidNotReused(states[k], workload)
  {
    RunKeepsInv(states, steps, workload, k);
    assert Enabled(states[k], steps[k]);
    var first :| 0 <= first < |states[k].reaped| && FirstUnder(states[k].reaped, first, workload);
    assert first == i;
    OnlyStatus(states[k].reaped, workload, last);
    if last == i {
      forall a, b | 0 <= a < b < |states[k].reaped|
        ensures states[k].reaped[a].pid != workload || states[k].reaped[b].pid != workload
      {
        if a < i {
          assert states[k].reaped[..i][a] == states[k].reaped[a];
        }
      }
    }
  }

  lemma {:induction false} OnlyStatus(reaped: seq<Reaped>, pid: nat, i: nat)
    requires LastUnder(reaped, pid, i)
    ensures LastStatus(reaped, pid) == Some(reaped[i].status)
  {
    if i < |reaped| - 1 {
      OnlyStatus(reaped[..|reaped| - 1], pid, i);
    }
  }

  // ---------------------------------------------------------------- signals

  /** A forwarded signal stays pending until PID 1 takes it and sends it to the workload's group. */
  lemma {:induction false} NoSignalIsLost(states: seq<State>, steps: seq<Step>, workload: nat, i: nat, k: nat,
                                          signal: nat)
    requires IsRun(states, steps, workload) && i < k <= |steps| && steps[i] == Arrives(signal)
    ensures signal in states[k].othersPending ||
            exists j :: i < j < k && steps[j] == WaitOther(signal) &&
                        states[j + 1].sent == states[j].sent + [ToGroup(signal)]
    decreases k
  {
    var s, step := states[k - 1], steps[k - 1];
    assert Enabled(s, step) && states[k] == Next(s, step, workload);
    if i < k - 1 {
      NoSignalIsLost(states, steps, workload, i, k - 1, signal);
      if signal in s.othersPending && step == WaitOther(signal) {
        assert states[k - 1 + 1].sent == s.sent + [ToGroup(signal)];
      }
    }
  }

  /** PID 1 sends nothing else but SIGKILL: to the workload's group when it can no longer wait, and
      to every process once the workload has been reaped. */
  lemma SendsNothingElse(states: seq<State>, steps: seq<Step>, workload: nat, k: nat)
    requires IsRun(states, steps, workload) && k < |steps|
    ensures || states[k + 1].sent == states[k].sent
            || (exists signal :: steps[k] == WaitOther(signal) && signal in states[k].othersPending &&
                                 states[k + 1].sent == states[k].sent + [ToGroup(signal)])
            || (steps[k] == WaitFails && states[k + 1].sent == states[k].sent + [ToGroup(9)] &&
                states[k + 1].pc == Returned(125))
            || (states[k + 1].pc == Leaving && CollectedPid(states[k].reaped, workload) &&
                states[k + 1].sent == states[k].sent + [ToAll(9)])
  {
    RunKeepsInv(states, steps, workload, k);
    assert Enabled(states[k], steps[k]);
    NeverCollected(states[k].reaped, workload);
  }

  /** PID 1 leaves its loop only after it has told every other process to go. */
  lemma {:induction false} LeavingKillsAll(states: seq<State>, steps: seq<Step>, workload: nat, k: nat)
    requires IsRun(states, steps, workload) && k < |states| && states[k].pc == Leaving
    ensures ToAll(9) in states[k].sent
  {
    assert Enabled(states[k - 1], steps[k - 1]) && states[k] == Next(states[k - 1], steps[k - 1], workload);
    if states[k - 1].pc == Leaving {
      LeavingKillsAll(states, steps, workload, k - 1);
    } else {
      assert states[k].sent[|states[k - 1].sent|] == ToAll(9);
    }
  }

  /** PID 1 returns in two ways: 125 because it cannot wait, or by the loop when no child is left. */
  lemma ReturnsExactly(states: seq<State>, steps: seq<Step>, workload: nat, k: nat)
    requires IsRun(states, steps, workload) && k < |steps|
    requires states[k + 1].pc.Returned? && !states[k].pc.Returned?
    ensures || (steps[k] == WaitFails && states[k].pc == Waiting && states[k + 1].pc == Returned(125))
            || (steps[k] == Finish && states[k].pc == Leaving && states[k].children == map[])
  {
    assert Enabled(states[k], steps[k]);
  }

  // ---------------------------------------------------------------- progress

  /** Steps the supervisor makes without any help from outside. */
  predicate OwnStep(step: Step) {
    step.WaitChild? || step.WaitOther? || step.ReapOne? || step.ReapNone?
  }

  /** `steps` are own steps, in any order the kernel and the loop allow, that take `s` to `t`. */
  ghost predicate Leads(s: State, steps: seq<Step>, t: State, workload: nat)
    decreases |steps|
  {
    if steps == [] then s == t
    else OwnStep(steps[0]) && Enabled(s, steps[0]) && Leads(Next(s, steps[0], workload), steps[1..], t, workload)
  }

  /** The loop is bound to end: the workload is dead and will be met, or has been. */
  predicate Doomed(s: State, workload: nat) {
    || (s.pc == Waiting && s.childPending && IsZombie(s, workload))
    || (s.pc == Reaping && (IsZombie(s, workload) || s.workloadStatus.Some?))
  }

  /** The status the loop will end with. */
  function Verdict(s: State, workload: nat): Option<Status> {
    if IsZombie(s, workload) then s.children[workload].exit else s.workloadStatus
  }

  /** How many own steps are left at most. */
  function Remaining(s: State): nat {
    match s.pc
    case Waiting => |s.othersPending| + |s.children| + 2
    case Reaping => |s.children| + 1
    case _ => 0
  }

  lemma OwnStepProgresses(s: State, step: Step, workload: nat)
    requires Doomed(s, workload) && OwnStep(step) && Enabled(s, step)
    ensures var t := Next(s, step, workload);
            && Remaining(t) < Remaining(s) && Verdict(t, workload) == Verdict(s, workload)
            && (Doomed(t, workload) || (t.pc == Leaving && t.workloadStatus == Verdict(s, workload)))
  {
    var t := Next(s, step, workload);
    match step {
      case WaitOther(signal) => assert t.othersPending + {signal} == s.othersPending;
      case ReapOne(pid) => assert t.children.Keys == s.children.Keys - {pid};
      case _ =>
    }
  }

  lemma OwnStepIsEnabled(s: State, workload: nat)
    requires Doomed(s, workload)
    ensures exists step :: OwnStep(step) && Enabled(s, step)
  {
    if s.pc == Waiting {
      assert OwnStep(WaitChild) && Enabled(s, WaitChild);
    } else if pid :| pid in s.children && s.children[pid].exit.Some? {
      assert OwnStep(ReapOne(pid)) && Enabled(s, ReapOne(pid));
    } else {
      assert OwnStep(ReapNone) && Enabled(s, ReapNone);
    }
  }

  lemma LeavingIsTheEnd(s: State, steps: seq<Step>, t: State, workload: nat)
    requires s.pc == Leaving && Leads(s, steps, t, workload)
    ensures steps == [] && s == t
  {
  }

  lemma {:induction false} OwnStepsEnd(s: State, steps: seq<Step>, t: State, workload: nat)
    requires Doomed(s, workload) && Leads(s, steps, t, workload)
    ensures |steps| + Remaining(t) <= Remaining(s)
    ensures if t.pc == Leaving then t.workloadStatus == Verdict(s, workload) else Doomed(t, workload)
    decreases |steps|
  {
    if steps != [] {
      var next := Next(s, steps[0], workload);
      OwnStepProgresses(s, steps[0], workload);
      if next.pc == Leaving {
        LeavingIsTheEnd(next, steps[1..], t, workload);
      } else {
        OwnStepsEnd(next, steps[1..], t, workload);
      }
    }
  }

  /** Once the workload is dead the supervisor needs no further event. From any state of any run
      in which it waits or reaps, every sequence of its own steps is bounded, can be continued as
      long as the loop has not ended, and ends it with the status of the dead workload. */
  lemma DeadWorkloadEndsLoop(states: seq<State>, history: seq<Step>, workload: nat, k: nat, steps: seq<Step>, t: State)
    requires IsRun(states, history, workload) && k < |states|
    requires states[k].pc == Waiting || states[k].pc == Reaping
    requires IsZombie(states[k], workload) && Leads(states[k], steps, t, workload)
    ensures |steps| <= Remaining(states[k])
    ensures t.pc == Leaving ==> t.workloadStatus == states[k].children[workload].exit
    ensures t.pc != Leaving ==> exists step :: OwnStep(step) && Enabled(t, step)
  {
    RunKeepsInv(states, history, workload, k);
    OwnStepsEnd(states[k], steps, t, workload);
    if t.pc != Leaving {
      OwnStepIsEnabled(t, workload);
    }
  }

  /** Nothing that happens outside saves a doomed loop, short of a failing sigwaitinfo. */
  lemma DoomIsFinal(s: State, step: Step, workload: nat)
    requires Doomed(s, workload) && Enabled(s, step) && !OwnStep(step) && step != WaitFails
    ensures Doomed(Next(s, step, workload), workload)
  {
  }

  /** A SIGCHLD without a dead child makes the loop go round once and wait again. */
  lemma SpuriousWakeup(s: State, workload: nat)
    requires s.pc == Waiting && NoZombie(s) && s.workloadStatus == None
    ensures var woken := Next(s, SpuriousChild, workload);
            && Enabled(woken, WaitChild)
            && var reaping := Next(woken, WaitChild, workload);
            && Enabled(reaping, ReapNone) && Next(reaping, ReapNone, workload) == s.(childPending := false)
  {
  }

  /** Once the loop has ended, the remaining children are waited for one by one. */
  lemma RestIsReaped(s: State, pid: nat, other: nat, workload: nat)
    requires s.pc == Leaving && pid in s.children
    ensures Enabled(s, ReapRest(pid))
    ensures other in Next(s, ReapRest(pid), workload).children <==> other in s.children && other != pid
  {
  }

  // ---------------------------------------------------------------- two runs

  function QuietSteps(workload: nat, status: Status): seq<Step> {
    [ChildExits(workload, status), WaitChild, ReapOne(workload), ReapNone, Finish]
  }

  function QuietStates(workload: nat, status: Status, code: nat): seq<State> {
    var dead, left := map[workload := Child(0, Some(status))], [Reaped(workload, 0, status)];
    [Forked(workload), State(dead, 1, true, {}, Waiting, None, [], []),
     State(dead, 1, false, {}, Reaping, None, [], []),
     State(map[], 1, false, {}, Reaping, Some(status), left, []),
     State(map[], 1, false, {}, Leaving, Some(status), left, [ToAll(9)]),
     State(map[], 1, false, {}, Returned(code), Some(status), left, [ToAll(9)])]
  }

  ghost predicate QuietFollows(workload: nat, status: Status, code: nat, k: nat)
    requires k < 5
  {
    var states, steps := QuietStates(workload, status, code), QuietSteps(workload, status);
    Enabled(states[k], steps[k]) && states[k + 1] == Next(states[k], steps[k], workload)
  }

  lemma QuietBegins(workload: nat, status: Status, code: nat)
    ensures forall k :: 0 <= k < 3 ==> QuietFollows(workload, status, code, k)
  {
    assert map[workload := Child(0, Some(status))] - {workload} == map[];
  }

  lemma QuietEnds(workload: nat, status: Status)
    ensures var code := match status case Exited(code) => code case Signaled(signal) => 128 + signal;
            QuietFollows(workload, status, code, 3) && QuietFollows(workload, status, code, 4)
  {
  }

  /** The run in which nothing happens but the workload's end, whatever it ends with. */
  lemma QuietRun(workload: nat, status: Status)
    ensures var code := match status case Exited(code) => code case Signaled(signal) => 128 + signal;
            IsRun(QuietStates(workload, status, code), QuietSteps(workload, status), workload)
  {
    var code := match status case Exited(code) => code case Signaled(signal) => 128 + signal;
    QuietBegins(workload, status, code);
    QuietEnds(workload, status);
    forall k | 0 <= k < 5 ensures QuietFollows(workload, status, code, k) {
    }
  }

  /** A run in which a second process gets the workload's pid while the reap loop is running. */
  const OWN_STATUS := Exited(0)
  const FOREIGN_STATUS := Exited(9)

  function ReuseSteps(workload: nat): seq<Step> {
    [ChildExits(workload, OWN_STATUS), WaitChild, ReapOne(workload), Adopt(workload, Some(FOREIGN_STATUS)),
     ReapOne(workload), ReapNone, Finish]
  }

  function BeforeReuse(workload: nat, exit: Option<Status>, pending: bool, pc: Pc): State {
    State(map[workload := Child(0, exit)], 1, pending, {}, pc, None, [], [])
  }

  function AfterReuse(workload: nat, children: map<nat, Child>, births: nat, status: Status, more: seq<Reaped>,
                      pc: Pc): State
  {
    State(children, births, births == 2, {}, pc, Some(status), [Reaped(workload, 0, OWN_STATUS)] + more,
          if pc == Reaping then [] else [ToAll(SIGKILL)])
  }

  function ReuseStates(workload: nat): seq<State> {
    var last := [Reaped(workload, 1, FOREIGN_STATUS)];
    [BeforeReuse(workload, None, false, Waiting), BeforeReuse(workload, Some(OWN_STATUS), true, Waiting),
     BeforeReuse(workload, Some(OWN_STATUS), false, Reaping), AfterReuse(workload, map[], 1, OWN_STATUS, [], Reaping),
     AfterReuse(workload, map[workload := Child(1, Some(FOREIGN_STATUS))], 2, OWN_STATUS, [], Reaping),
     AfterReuse(workload, map[], 2, FOREIGN_STATUS, last, Reaping),
     AfterReuse(workload, map[], 2, FOREIGN_STATUS, last, Leaving),
     AfterReuse(workload, map[], 2, FOREIGN_STATUS, last, Returned(9))]
  }

  ghost predicate Follows(workload: nat, k: nat)
    requires k < 7
  {
    var states, steps := ReuseStates(workload), ReuseSteps(workload);
    Enabled(states[k], steps[k]) && states[k + 1] == Next(states[k], steps[k], workload)
  }

  lemma ReuseBegins(workload: nat)
    ensures Follows(workload, 0) && Follows(workload, 1) && Follows(workload, 2)
  {
    assert map[workload := Child(0, Some(OWN_STATUS))] - {workload} == map[];
  }

  lemma ReuseEnds(workload: nat)
    ensures Follows(workload, 3) && Follows(workload, 4)
  {
    assert map[workload := Child(1, Some(FOREIGN_STATUS))] - {workload} == map[];
  }

  lemma ReuseReturns(workload: nat)
    ensures Follows(workload, 5) && Follows(workload, 6)
  {
  }

  /** The second process's status replaces the recorded one: PID 1 reports 9 for a workload that
      exited with 0. */
  lemma ReusedPidOverwritesStatus(workload: nat)
    ensures IsRun(ReuseStates(workload), ReuseSteps(workload), workload)
    ensures ReuseStates(workload)[6].reaped == [Reaped(workload, 0, Exited(0)), Reaped(workload, 1, Exited(9))]
    ensures ReuseStates(workload)[7].pc == Returned(9)
  {
    ReuseBegins(workload);
    ReuseEnds(workload);
    ReuseReturns(workload);
  }
}
