/** `copy-programs.py`: every device with a target address and programs gets `/home/pi/wcl`
    created over ssh, then each of its programs rsynced there from the data directory. */
module ProgramCopier {
  import opened PyValues
  import opened Selection
  import opened Plans

  /** The commands `main` hands to `os.system`. */
  datatype Command = Mkdir(rpi: string) | Rsync(dataDir: string, program: string, rpi: string)

  /** The shell text of a command. */
  function Line(c: Command): string {
    match c
    case Mkdir(rpi) => "ssh " + rpi + " 'mkdir -p /home/pi/wcl'"
    case Rsync(dataDir, program, rpi) => "rsync -a --exclude='.git' " + dataDir + "/" + program + " " + rpi + ":/home/pi/wcl/"
  }

  /** The inner loop: one `rsync` per program, in list order; an f-string formats any value. */
  function CopyCommands(dataDir: string, rpi: string, items: seq<Value>): (cmds: seq<Command>)
    ensures |cmds| == |items|
    ensures forall i :: 0 <= i < |items| ==> cmds[i] == Rsync(dataDir, Text(items[i]), rpi)
  {
    if items == [] then []
    else CopyCommands(dataDir, rpi, items[..|items| - 1]) + [Rsync(dataDir, Text(items[|items| - 1]), rpi)]
  }

  /** One round of the device loop. `device.get` on a non-dict raises AttributeError; a truthy
      `programs` that is not iterable raises TypeError once the directory has been created. */
  function DevicePlan(dataDir: string, shared: seq<string>, device: Value): Plan<Command> {
    if !device.PyDict? then Crash()
    else
      var rpi := Target(device.entries);
      var programs := Programs(device.entries, shared);
      if !Truthy(rpi) || !Truthy(programs) then Nothing()
      else
        var mkdir := Mkdir(Text(rpi));
        match Iterate(programs)
        case None => Plan([mkdir], true)
        case Some(items) => Plan([mkdir] + CopyCommands(dataDir, Text(rpi), items), false)
  }

  function DeviceStep(dataDir: string, shared: seq<string>): Value -> Plan<Command> {
    device => DevicePlan(dataDir, shared, device)
  }

  /** What `main` does with the loaded devices and shared program list. */
  function CopyPlan(dataDir: string, devices: seq<Value>, shared: seq<string>): Plan<Command> {
    Chain(devices, DeviceStep(dataDir, shared))
  }

  /** `main`, after loading `devices.yaml` and the program list. */
  method CopyPrograms(dataDir: string, devices: seq<Value>, shared: seq<string>) returns (plan: Plan<Command>)
    ensures plan == CopyPlan(dataDir, devices, shared)
  {
    var cmds: seq<Command> := [];
    for i := 0 to |devices|
      invariant Chain(devices[..i], DeviceStep(dataDir, shared)) == Plan(cmds, false)
    {
      ChainStep(devices, i, DeviceStep(dataDir, shared));
      var device := devices[i];
      if !device.PyDict? {
        ChainStopsAt(devices, i, DeviceStep(dataDir, shared));
        return Plan(cmds, true);
      }
      var rpi := Target(device.entries);
      if !Truthy(rpi) {
        continue;
      }
      var programs := Programs(device.entries, shared);
      if !Truthy(programs) {
        continue;
      }
      cmds := cmds + [Mkdir(Text(rpi))];
      var items := Iterate(programs);
      if items.None? {
        ChainStopsAt(devices, i, DeviceStep(dataDir, shared));
        return Plan(cmds, true);
      }
      var copies := CopyEach(dataDir, Text(rpi), items.value);
      assert DevicePlan(dataDir, shared, device) == Plan([Mkdir(Text(rpi))] + copies, false);
      cmds := cmds + copies;
    }
    assert devices[..|devices|] == devices;
    plan := Plan(cmds, false);
  }

  /** The inner loop of `main` over one device's programs. */
  method CopyEach(dataDir: string, rpi: string, items: seq<Value>) returns (cmds: seq<Command>)
    ensures cmds == CopyCommands(dataDir, rpi, items)
  {
    cmds := [];
    for j := 0 to |items|
      invariant cmds == CopyCommands(dataDir, rpi, items[..j])
    {
      assert items[..j + 1][..j] == items[..j];
      cmds := cmds + [Rsync(dataDir, Text(items[j]), rpi)];
    }
    assert items[..|items|] == items;
  }

  /** Nothing is issued for an empty device list. */
  lemma NoDevicesNoCommands(dataDir: string, shared: seq<string>)
    ensures CopyPlan(dataDir, [], shared) == Nothing()
  {
  }

  /** A device with a target address and an iterable, non-empty program list gets its directory
      first and then one copy per program (whose closed form `CopyCommands` states). */
  lemma DeviceCopies(dataDir: string, shared: seq<string>, device: Value)
    requires device.PyDict? && Truthy(Target(device.entries))
    requires Truthy(Programs(device.entries, shared)) && Iterate(Programs(device.entries, shared)).Some?
    ensures var rpi := Text(Target(device.entries));
            var items := Iterate(Programs(device.entries, shared)).value;
            DevicePlan(dataDir, shared, device) == Plan([Mkdir(rpi)] + CopyCommands(dataDir, rpi, items), false)
  {
  }

  /** A device without a target address, or whose programs are empty, gets no command. */
  lemma SkippedDevice(dataDir: string, shared: seq<string>, device: Value)
    requires device.PyDict?
    requires !Truthy(Target(device.entries)) || !Truthy(Programs(device.entries, shared))
    ensures DevicePlan(dataDir, shared, device) == Nothing()
  {
  }

  /** The script ends on an exception exactly when one device's round raises. */
  lemma CopyCrashes(dataDir: string, devices: seq<Value>, shared: seq<string>)
    ensures CopyPlan(dataDir, devices, shared).crashed <==>
              exists i :: 0 <= i < |devices| && DevicePlan(dataDir, shared, devices[i]).crashed
  {
    ChainCrashed(devices, DeviceStep(dataDir, shared));
  }

  /** Devices are served in list order: the first `i` devices' commands come first. */
  lemma CopyInOrder(dataDir: string, devices: seq<Value>, shared: seq<string>, i: nat)
    requires i <= |devices|
    ensures CopyPlan(dataDir, devices[..i], shared).cmds <= CopyPlan(dataDir, devices, shared).cmds
  {
    ChainPrefix(devices, i, DeviceStep(dataDir, shared));
  }
}
