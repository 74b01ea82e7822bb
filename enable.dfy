/** `enable-programs.py`: the devices with a target address and programs become tasks, and each
    task, on a worker thread, creates `/home/pi/wcl` on its device and runs every program's
    `setup` script there over ssh. */
module ProgramEnabler {
  import opened PyText
  import opened PyValues
  import opened Selection

  /** `(host, programs)` as `main` queues it. */
  datatype Task = Task(host: Value, programs: Value)

  /** The task a device yields, if any; `device.get` on a non-dict raises AttributeError, which
      ends `main` before any task is submitted (None). */
  function TaskOf(shared: seq<string>, device: Value): Option<Option<Task>> {
    if !device.PyDict? then None
    else
      var host := Target(device.entries);
      var programs := Programs(device.entries, shared);
      if !Truthy(host) || !Truthy(programs) then Some(None) else Some(Some(Task(host, programs)))
  }

  /** A device that yields a task. */
  predicate Eligible(shared: seq<string>, device: Value) {
    device.PyDict? && Truthy(Target(device.entries)) && Truthy(Programs(device.entries, shared))
  }

  function Tasks(shared: seq<string>, devices: seq<Value>): (r: Option<seq<Task>>)
    ensures r.None? <==> exists i :: 0 <= i < |devices| && !devices[i].PyDict?
    ensures r.Some? ==> |r.value| <= |devices|
  {
    if devices == [] then Some([])
    else
      var last := devices[|devices| - 1];
      var front := devices[..|devices| - 1];
      var before := Tasks(shared, front);
      assert forall i :: 0 <= i < |front| ==> front[i] == devices[i];
      match TaskOf(shared, last)
      case None => None
      case Some(t) =>
        if before.None? then None
        else Some(before.value + (if t.Some? then [t.value] else []))
  }

  /** The loop of `main` that builds `tasks`. */
  method CollectTasks(shared: seq<string>, devices: seq<Value>) returns (tasks: Option<seq<Task>>)
    ensures tasks == Tasks(shared, devices)
  {
    var queued: seq<Task> := [];
    for i := 0 to |devices|
      invariant Tasks(shared, devices[..i]) == Some(queued)
    {
      TasksStep(shared, devices, i);
      var device := devices[i];
      if !device.PyDict? {
        TasksStop(shared, devices, i + 1);
        return None;
      }
      var host := Target(device.entries);
      var programs := Programs(device.entries, shared);
      if !Truthy(host) {
        continue;
      }
      if !Truthy(programs) {
        continue;
      }
      queued := queued + [Task(host, programs)];
    }
    assert devices[..|devices|] == devices;
    tasks := Some(queued);
  }

  lemma TasksStep(shared: seq<string>, devices: seq<Value>, i: nat)
    requires i < |devices| && Tasks(shared, devices[..i]).Some?
    ensures TaskOf(shared, devices[i]) == Some(None) ==> Tasks(shared, devices[..i + 1]) == Tasks(shared, devices[..i])
    ensures forall t :: TaskOf(shared, devices[i]) == Some(Some(t)) ==>
              Tasks(shared, devices[..i + 1]) == Some(Tasks(shared, devices[..i]).value + [t])
  {
    var ys := devices[..i + 1];
    assert ys[..|ys| - 1] == devices[..i];
    assert ys[|ys| - 1] == devices[i];
    assert Tasks(shared, devices[..i]).value + [] == Tasks(shared, devices[..i]).value;
  }

  lemma TasksStop(shared: seq<string>, devices: seq<Value>, i: nat)
    requires 0 < i <= |devices| && !devices[i - 1].PyDict?
    ensures Tasks(shared, devices).None?
  {
  }

  /** Every eligible device yields its task... */
  lemma {:induction false} EligibleQueued(shared: seq<string>, devices: seq<Value>, i: nat)
    requires Tasks(shared, devices).Some? && i < |devices| && Eligible(shared, devices[i])
    ensures var d := devices[i].entries;
            Task(Target(d), Programs(d, shared)) in Tasks(shared, devices).value
  {
    var front := devices[..|devices| - 1];
    if i < |devices| - 1 {
      assert front[i] == devices[i];
      EligibleQueued(shared, front, i);
    }
  }

  /** ...and only eligible devices do. */
  lemma {:induction false} QueuedEligible(shared: seq<string>, devices: seq<Value>, t: Task)
    requires Tasks(shared, devices).Some? && t in Tasks(shared, devices).value
    ensures exists i :: 0 <= i < |devices| && Eligible(shared, devices[i]) &&
                        t == Task(Target(devices[i].entries), Programs(devices[i].entries, shared))
  {
    var front := devices[..|devices| - 1];
    var last := devices[|devices| - 1];
    if t in Tasks(shared, front).value {
      QueuedEligible(shared, front, t);
      var i :| 0 <= i < |front| && Eligible(shared, front[i]) &&
               t == Task(Target(front[i].entries), Programs(front[i].entries, shared));
      assert front[i] == devices[i];
    } else {
      assert Eligible(shared, last);
    }
  }

  // ---------------------------------------------------------------------------------------------
  // process_rpi

  /** The commands `process_rpi` hands to `os.system`. */
  datatype Command = Mkdir(rpi: string) | Setup(rpi: string, program: string)

  /** The shell text of a command. */
  function Line(c: Command): string {
    match c
    case Mkdir(rpi) => "ssh " + rpi + " 'mkdir -p /home/pi/wcl'"
    case Setup(rpi, program) => "ssh " + rpi + " 'cd /home/pi/wcl/" + program + " && source setup'"
  }

  /** The inner loop: a `setup` run for each truthy program, in list order. */
  function SetupCommands(rpi: string, items: seq<Value>): seq<Command>
  {
    if items == [] then []
    else
      var p := items[|items| - 1];
      SetupCommands(rpi, items[..|items| - 1]) + (if Truthy(p) then [Setup(rpi, Text(p))] else [])
  }

  /** What `process_rpi(host, programs)` issues. A non-str host has no `strip` and a truthy
      non-iterable `programs` cannot be looped over; both raise inside the worker thread, where the
      exception is kept in a future nobody reads, so the task just stops. */
  function RpiCommands(host: Value, programs: Value): seq<Command> {
    if !host.PyStr? || Strip(host.s) == [] then []
    else
      var rpi := Strip(host.s);
      match Iterate(programs)
      case None => [Mkdir(rpi)]
      case Some(items) => [Mkdir(rpi)] + SetupCommands(rpi, items)
  }

  /** `process_rpi` */
  method ProcessRpi(host: Value, programs: Value) returns (cmds: seq<Command>)
    ensures cmds == RpiCommands(host, programs)
  {
    if !host.PyStr? {
      return [];
    }
    var rpi := Strip(host.s);
    if rpi == [] {
      return [];
    }
    cmds := [Mkdir(rpi)];
    var items := Iterate(programs);
    if items.None? {
      return;
    }
    for j := 0 to |items.value|
      invariant cmds == [Mkdir(rpi)] + SetupCommands(rpi, items.value[..j])
    {
      assert items.value[..j + 1][..j] == items.value[..j];
      var program := items.value[j];
      if !Truthy(program) {
        continue;
      }
      cmds := cmds + [Setup(rpi, Text(program))];
    }
    assert items.value[..|items.value|] == items.value;
  }

  /** Every truthy program gets its `setup` run... */
  lemma {:induction false} TruthySetUp(rpi: string, items: seq<Value>, i: nat)
    requires i < |items| && Truthy(items[i])
    ensures Setup(rpi, Text(items[i])) in SetupCommands(rpi, items)
  {
    var front := items[..|items| - 1];
    if i < |items| - 1 {
      assert front[i] == items[i];
      TruthySetUp(rpi, front, i);
    }
  }

  /** ...and every `setup` run is for a truthy program of the list. */
  lemma {:induction false} SetUpTruthy(rpi: string, items: seq<Value>, c: Command)
    requires c in SetupCommands(rpi, items)
    ensures exists i :: 0 <= i < |items| && Truthy(items[i]) && c == Setup(rpi, Text(items[i]))
  {
    var front := items[..|items| - 1];
    var p := items[|items| - 1];
    if c in SetupCommands(rpi, front) {
      SetUpTruthy(rpi, front, c);
      var i :| 0 <= i < |front| && Truthy(front[i]) && c == Setup(rpi, Text(front[i]));
      assert front[i] == items[i];
    } else {
      assert Truthy(p) && c == Setup(rpi, Text(p));
    }
  }

  /** A task issues nothing unless its host is text with something besides white space; then
      the directory comes first and the host is addressed without surrounding white space. */
  lemma TaskShape(host: Value, programs: Value)
    ensures RpiCommands(host, programs) != [] <==> host.PyStr? && Strip(host.s) != []
    ensures RpiCommands(host, programs) != [] ==> RpiCommands(host, programs)[0] == Mkdir(Strip(host.s))
  {
  }

  // ---------------------------------------------------------------------------------------------
  // main

  /** The commands each submitted task issues, one list per task in submission order; None when
      `main` raises while building the task list. How the worker threads interleave is not
      modelled. */
  function EnablePlan(shared: seq<string>, devices: seq<Value>): Option<seq<seq<Command>>> {
    match Tasks(shared, devices)
    case None => None
    case Some(ts) => Some(RunTasks(ts))
  }

  /** The tasks run one by one; each list is what that task's `process_rpi` issues. */
  function RunTasks(ts: seq<Task>): (r: seq<seq<Command>>)
    ensures |r| == |ts|
    ensures forall k :: 0 <= k < |ts| ==> r[k] == RpiCommands(ts[k].host, ts[k].programs)
  {
    if ts == [] then []
    else
      var t := ts[|ts| - 1];
      RunTasks(ts[..|ts| - 1]) + [RpiCommands(t.host, t.programs)]
  }

  /** `main`, after loading `devices.yaml` and the program list: build the tasks, then run each. */
  method EnablePrograms(shared: seq<string>, devices: seq<Value>) returns (perTask: Option<seq<seq<Command>>>)
    ensures perTask == EnablePlan(shared, devices)
  {
    var tasks := CollectTasks(shared, devices);
    if tasks.None? {
      return None;
    }
    var ts := tasks.value;
    var issued: seq<seq<Command>> := [];
    for i := 0 to |ts|
      invariant issued == RunTasks(ts[..i])
    {
      assert ts[..i + 1][..i] == ts[..i];
      var cmds := ProcessRpi(ts[i].host, ts[i].programs);
      issued := issued + [cmds];
    }
    assert ts[..|ts|] == ts;
    perTask := Some(issued);
  }

  /** Nothing runs for an empty device list. */
  lemma NoDevicesNoTasks(shared: seq<string>)
    ensures EnablePlan(shared, []) == Some([])
  {
  }

  /** A non-dict device anywhere in the list stops `main` before any task is submitted. */
  lemma NonDictStopsAll(shared: seq<string>, devices: seq<Value>, i: nat)
    requires i < |devices| && !devices[i].PyDict?
    ensures EnablePlan(shared, devices).None?
  {
  }
}
