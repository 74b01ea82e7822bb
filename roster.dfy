/** src/utils/devices_config.py: the device roster kept in devices.yaml and the shared program list.
    Loading starts from the decoded YAML value and the file's text; the roster's device entries are
    mutable records that the update operations change in place. */
module DevicesConfig {
  import opened PyText
  import opened PyValues
  import opened Selection

  // ---------------------------------------------------------------------------------------------
  // load_devices

  /** The body of `load_devices` after `yaml.safe_load`: `file` is None when devices.yaml does not
      exist. Only a mapping whose `devices` entry is a list yields devices. */
  function LoadDevices(file: Option<Value>): (r: seq<Value>)
    ensures (file.Some? && file.value.PyDict? && Field(file.value.entries, "devices").PyList?) ==>
              r == Field(file.value.entries, "devices").items
    ensures !(file.Some? && file.value.PyDict? && Field(file.value.entries, "devices").PyList?) ==> r == []
  {
    match file
    case None => []
    case Some(decoded) =>
      var content := Or(decoded, PyDict([]));
      if content.PyDict? then
        var devices := Or(Field(content.entries, "devices"), PyList([]));
        if devices.PyList? then devices.items else []
      else []
  }

  /** The payload `save_devices` writes: `{"devices": devices}`. */
  function SavedPayload(devices: seq<Value>): Value {
    PyDict([Entry("devices", PyList(devices))])
  }

  /** Loading what `save_devices` wrote gives the same devices back. */
  lemma LoadSaved(devices: seq<Value>)
    ensures LoadDevices(Some(SavedPayload(devices))) == devices
  {
    assert Get([Entry("devices", PyList(devices))], "devices") == Some(PyList(devices));
  }

  // ---------------------------------------------------------------------------------------------
  // load_programs_list

  /** Python's text-mode reading with universal newlines: `\r\n` and a lone `\r` read as `\n`. */
  function Universal(s: string): (r: string)
    ensures '\r' !in r
    ensures '\r' !in s ==> r == s
  {
    if s == [] then []
    else if s[0] == '\r' then
      "\n" + Universal(if |s| > 1 && s[1] == '\n' then s[2..] else s[1..])
    else [s[0]] + Universal(s[1..])
  }

  /** `file.readlines()`: pieces ending after each `\n`, then the unterminated rest if any. */
  function ReadLines(s: string): (lines: seq<string>)
    decreases |s|
  {
    if s == [] then []
    else
      var k := IndexOf(s, '\n');
      if k == |s| then [s] else [s[..k + 1]] + ReadLines(s[k + 1..])
  }

  /** The comprehension of `load_programs_list`: each line stripped, blank ones dropped. */
  function KeepNonBlank(lines: seq<string>): (r: seq<string>)
    ensures forall i :: 0 <= i < |r| ==> r[i] != [] && Strip(r[i]) == r[i]
  {
    if lines == [] then []
    else
      var s := Strip(lines[0]);
      StripIdempotent(lines[0]);
      (if s != [] then [s] else []) + KeepNonBlank(lines[1..])
  }

  /** `load_programs_list` given the text of list-of-programs, None when the file does not exist. */
  function LoadProgramsList(file: Option<string>): (r: seq<string>)
    ensures file.None? ==> r == []
    ensures forall i :: 0 <= i < |r| ==> r[i] != [] && Strip(r[i]) == r[i]
  {
    match file
    case None => []
    case Some(text) => KeepNonBlank(ReadLines(Universal(text)))
  }

  /** A program name as the list file holds it: non-empty, without surrounding white space and
      without a line end. */
  predicate PlainName(name: string) {
    name != [] && Strip(name) == name && '\n' !in name && '\r' !in name
  }

  /** A list file written one name per line reads back as those names, in file order. */
  lemma {:induction false} ProgramsListRoundTrip(names: seq<string>)
    requires forall i :: 0 <= i < |names| ==> PlainName(names[i])
    ensures LoadProgramsList(Some(Terminated(names))) == names
  {
    TerminatedNoCR(names);
    LinesOfTerminated(names);
  }

  lemma {:induction false} TerminatedNoCR(names: seq<string>)
    requires forall i :: 0 <= i < |names| ==> '\r' !in names[i]
    ensures '\r' !in Terminated(names)
  {
    if names != [] {
      TerminatedNoCR(names[1..]);
    }
  }

  lemma {:induction false} LinesOfTerminated(names: seq<string>)
    requires forall i :: 0 <= i < |names| ==> PlainName(names[i])
    ensures KeepNonBlank(ReadLines(Terminated(names))) == names
  {
    if names != [] {
      var n := names[0];
      ReadLinesCons(n, Terminated(names[1..]));
      StripNewline(n);
      LinesOfTerminated(names[1..]);
    }
  }

  /** Reading a line ended by `\n` and then the rest. */
  lemma ReadLinesCons(n: string, rest: string)
    requires '\n' !in n
    ensures ReadLines(n + "\n" + rest) == [n + "\n"] + ReadLines(rest)
  {
    var s := n + "\n" + rest;
    assert IndexOf(s, '\n') == |n| by {
      assert forall k :: 0 <= k < |n| ==> s[k] == n[k];
      assert s[|n|] == '\n';
    }
    assert s[..|n| + 1] == n + "\n";
    assert s[|n| + 1..] == rest;
  }

  /** A trailing line end is stripped with the rest of the white space. */
  lemma StripNewline(n: string)
    requires n != [] && Strip(n) == n
    ensures Strip(n + "\n") == n
  {
    var s := n + "\n";
    assert !IsSpace(n[0]) && !IsSpace(n[|n| - 1]);
    assert s[0] == n[0];
    assert StripStart(s) == 0;
    assert s[..|n|] == n;
    assert StripEnd(s) == StripEnd(s[..|s| - 1]);
    assert StripStart(n) == 0 && StripEnd(n) == |n|;
  }

  /** Blank lines anywhere in the file are ignored. */
  lemma {:induction false} BlankLinesIgnored(lines: seq<string>, blank: string)
    requires Strip(blank) == []
    ensures KeepNonBlank([blank] + lines) == KeepNonBlank(lines)
  {
    assert ([blank] + lines)[1..] == lines;
  }

  // ---------------------------------------------------------------------------------------------
  // get_device

  /** `get_device(devices, device_id)`: the position of the first device whose `id` equals
      `device_id`, None when there is none. */
  function GetDevice(devices: seq<Dict>, id: string): (r: Option<nat>)
    ensures r.Some? ==> r.value < |devices| && Field(devices[r.value], "id") == PyStr(id)
    ensures r.Some? ==> forall j :: 0 <= j < r.value ==> Field(devices[j], "id") != PyStr(id)
    ensures r.None? ==> forall j :: 0 <= j < |devices| ==> Field(devices[j], "id") != PyStr(id)
  {
    if devices == [] then None
    else if Field(devices[0], "id") == PyStr(id) then Some(0)
    else
      match GetDevice(devices[1..], id)
      case None => None
      case Some(i) => Some(i + 1)
  }

  // ---------------------------------------------------------------------------------------------
  // Updates of one device entry

  /** `device.setdefault("env", {}).update(...)` raises AttributeError: `env` holds a non-mapping. */
  predicate EnvConflict(d: Dict) {
    HasKey(d, "env") && !Field(d, "env").PyDict?
  }

  /** The device's `env` mapping, empty when there is none yet. */
  function EnvOf(d: Dict): Dict
    requires !EnvConflict(d)
  {
    if HasKey(d, "env") then Field(d, "env").entries else []
  }

  /** The entry after `update_device_env(device, updates)` when it does not raise. */
  function MergeEnv(d: Dict, updates: Dict): Dict
    requires !EnvConflict(d)
  {
    Set(d, "env", PyDict(Update(EnvOf(d), updates)))
  }

  /** After the merge, `env` is a mapping in which the updated keys hold their new values and every
      other key its old one, and every key of the entry but `env` is untouched. */
  lemma MergeEnvEffect(d: Dict, updates: Dict, k: string)
    requires !EnvConflict(d) && DistinctKeys(updates)
    ensures Field(MergeEnv(d, updates), "env").PyDict?
    ensures Get(Field(MergeEnv(d, updates), "env").entries, k)
         == if HasKey(updates, k) then Get(updates, k) else Get(EnvOf(d), k)
    ensures k != "env" ==> Get(MergeEnv(d, updates), k) == Get(d, k)
  {
    var e := PyDict(Update(EnvOf(d), updates));
    GetSet(d, "env", e, "env");
    GetSet(d, "env", e, k);
    GetUpdate(EnvOf(d), updates, k);
  }

  /** Merging no updates still creates an empty `env` when there is none, and otherwise changes
      nothing. */
  lemma MergeNothing(d: Dict)
    requires !EnvConflict(d)
    ensures !HasKey(d, "env") ==> MergeEnv(d, []) == d + [Entry("env", PyDict([]))]
    ensures HasKey(d, "env") ==> MergeEnv(d, []) == d
  {
    SetExisting(d, "env");
    SetMissing(d, "env", PyDict([]));
  }

  /** Storing a key's own value back changes nothing. */
  lemma {:induction false} SetExisting(d: Dict, k: string)
    ensures HasKey(d, k) ==> Set(d, k, Field(d, k)) == d
  {
    if d != [] && d[0].key != k {
      SetExisting(d[1..], k);
      assert d == [d[0]] + d[1..];
    }
  }

  /** Storing a missing key appends it. */
  lemma {:induction false} SetMissing(d: Dict, k: string, v: Value)
    ensures !HasKey(d, k) ==> Set(d, k, v) == d + [Entry(k, v)]
  {
    if d != [] && d[0].key != k {
      SetMissing(d[1..], k, v);
      assert d == [d[0]] + d[1..];
    }
  }

  /** `set_device_programs` replaces `programs` and touches no other key. */
  lemma SetProgramsEffect(d: Dict, programs: seq<string>, k: string)
    ensures Get(Set(d, "programs", StrList(programs)), k)
         == if k == "programs" then Some(StrList(programs)) else Get(d, k)
  {
    GetSet(d, "programs", StrList(programs), k);
  }

  /** One mutable device entry of the roster. */
  class DeviceRecord {
    var fields: Dict

    constructor (fields: Dict)
      ensures this.fields == fields
    {
      this.fields := fields;
    }

    /** `update_device_env(device, updates)`; `raised` when the existing `env` is not a mapping. */
    method UpdateEnv(updates: Dict) returns (raised: bool)
      modifies this
      ensures raised <==> EnvConflict(old(fields))
      ensures raised ==> fields == old(fields)
      ensures !raised ==> fields == MergeEnv(old(fields), updates)
    {
      if EnvConflict(fields) {
        return true;
      }
      fields := MergeEnv(fields, updates);
      raised := false;
    }

    /** Lines 73-79 of `upsert_device` on the located device. */
    method Apply(host: Option<string>, env: Option<Dict>, programs: Option<seq<string>>) returns (raised: bool)
      modifies this
      ensures raised == Edit(old(fields), host, env, programs).raised
      ensures fields == Edit(old(fields), host, env, programs).entry
    {
      if Given(host) {
        fields := Set(fields, "host", PyStr(host.value));
      }
      raised := false;
      if Merges(env) {
        raised := UpdateEnv(env.value);
        if raised {
          return;
        }
      }
      if programs.Some? {
        SetPrograms(programs.value);
      }
    }

    /** `set_device_programs(device, programs)` */
    method SetPrograms(programs: seq<string>)
      modifies this
      ensures fields == Set(old(fields), "programs", StrList(programs))
    {
      fields := Set(fields, "programs", StrList(programs));
    }
  }

  // ---------------------------------------------------------------------------------------------
  // upsert_device

  /** `if host:` for an `Optional[str]` argument. */
  predicate Given(host: Option<string>) {
    host.Some? && host.value != ""
  }

  /** `if env:` for an `Optional[Dict]` argument. */
  predicate Merges(env: Option<Dict>) {
    env.Some? && env.value != []
  }

  /** A device entry after lines 73-79, and whether the env merge raised (the host stays set). */
  datatype Edited = Edited(entry: Dict, raised: bool)

  function WithHost(d: Dict, host: Option<string>): Dict {
    if Given(host) then Set(d, "host", PyStr(host.value)) else d
  }

  function WithPrograms(d: Dict, programs: Option<seq<string>>): Dict {
    if programs.Some? then Set(d, "programs", StrList(programs.value)) else d
  }

  function Edit(d: Dict, host: Option<string>, env: Option<Dict>, programs: Option<seq<string>>): Edited {
    var d1 := WithHost(d, host);
    if !Merges(env) then Edited(WithPrograms(d1, programs), false)
    else if EnvConflict(d1) then Edited(d1, true)
    else Edited(WithPrograms(MergeEnv(d1, env.value), programs), false)
  }

  /** The host is set only when given non-empty. */
  lemma EditHost(d: Dict, host: Option<string>, env: Option<Dict>, programs: Option<seq<string>>)
    ensures Get(Edit(d, host, env, programs).entry, "host")
         == if Given(host) then Some(PyStr(host.value)) else Get(d, "host")
  {
    EditKeeps(d, host, env, programs, "host");
    WithHostEffect(d, host, "host");
  }

  /** Programs are replaced whenever given, even by an empty list. */
  lemma EditPrograms(d: Dict, host: Option<string>, env: Option<Dict>, programs: Option<seq<string>>)
    ensures var e := Edit(d, host, env, programs);
            !e.raised ==> Get(e.entry, "programs")
                          == if programs.Some? then Some(StrList(programs.value)) else Get(d, "programs")
  {
    var d1 := WithHost(d, host);
    WithHostEffect(d, host, "programs");
    if Merges(env) && !EnvConflict(d1) {
      MergeEnvOther(d1, env.value, "programs");
      WithProgramsEffect(MergeEnv(d1, env.value), programs, "programs");
    } else {
      WithProgramsEffect(d1, programs, "programs");
    }
  }

  /** No env, or an empty one, leaves `env` alone and cannot raise. */
  lemma EditWithoutEnv(d: Dict, host: Option<string>, env: Option<Dict>, programs: Option<seq<string>>)
    requires !Merges(env)
    ensures var e := Edit(d, host, env, programs);
            !e.raised && Get(e.entry, "env") == Get(d, "env")
  {
    WithHostEffect(d, host, "env");
    WithProgramsEffect(WithHost(d, host), programs, "env");
  }

  /** A key the edit does not name keeps its value; before `programs` is reached, a raise keeps
      `programs` too. */
  lemma EditKeeps(d: Dict, host: Option<string>, env: Option<Dict>, programs: Option<seq<string>>, k: string)
    requires k != "env" && k != "programs"
    ensures Get(Edit(d, host, env, programs).entry, k) == Get(WithHost(d, host), k)
  {
    var d1 := WithHost(d, host);
    if Merges(env) && !EnvConflict(d1) {
      MergeEnvOther(d1, env.value, k);
      WithProgramsEffect(MergeEnv(d1, env.value), programs, k);
    } else {
      WithProgramsEffect(d1, programs, k);
    }
  }

  lemma WithHostEffect(d: Dict, host: Option<string>, k: string)
    ensures Get(WithHost(d, host), k) == if Given(host) && k == "host" then Some(PyStr(host.value)) else Get(d, k)
  {
    if Given(host) {
      GetSet(d, "host", PyStr(host.value), k);
    }
  }

  lemma WithProgramsEffect(d: Dict, programs: Option<seq<string>>, k: string)
    ensures Get(WithPrograms(d, programs), k)
         == if programs.Some? && k == "programs" then Some(StrList(programs.value)) else Get(d, k)
  {
    if programs.Some? {
      GetSet(d, "programs", StrList(programs.value), k);
    }
  }

  lemma MergeEnvOther(d: Dict, updates: Dict, k: string)
    requires !EnvConflict(d) && k != "env"
    ensures Get(MergeEnv(d, updates), k) == Get(d, k)
  {
    GetSet(d, "env", PyDict(Update(EnvOf(d), updates)), k);
  }

  /** The roster after `upsert_device`, the position of the device it returns, and whether the env
      merge raised (the changes made before it stay). */
  datatype UpsertOutcome = UpsertOutcome(devices: seq<Dict>, index: nat, raised: bool)

  /** The roster with a device of the id: the first existing one, or a new `{"id": id}` appended. */
  function Located(devices: seq<Dict>, id: string): (r: seq<Dict>)
    ensures GetDevice(devices, id).Some? ==> r == devices
    ensures GetDevice(devices, id).None? ==> r == devices + [[Entry("id", PyStr(id))]]
  {
    if GetDevice(devices, id).None? then devices + [[Entry("id", PyStr(id))]] else devices
  }

  function Position(devices: seq<Dict>, id: string): (i: nat)
    ensures i < |Located(devices, id)|
  {
    match GetDevice(devices, id)
    case None => |devices|
    case Some(i) => i
  }

  function Upserted(devices: seq<Dict>, id: string, host: Option<string>, env: Option<Dict>,
                    programs: Option<seq<string>>): (r: UpsertOutcome)
    ensures r.index < |r.devices|
  {
    var all := Located(devices, id);
    var i := Position(devices, id);
    var e := Edit(all[i], host, env, programs);
    UpsertOutcome(all[i := e.entry], i, e.raised)
  }

  /** A device is appended only when none has the id, and then it is last; an existing one keeps
      its place; every other device is unchanged. */
  lemma UpsertPlacement(devices: seq<Dict>, id: string, host: Option<string>, env: Option<Dict>,
                        programs: Option<seq<string>>)
    ensures var r := Upserted(devices, id, host, env, programs);
            |r.devices| == (if GetDevice(devices, id).None? then |devices| + 1 else |devices|)
            && (GetDevice(devices, id).Some? ==> r.index == GetDevice(devices, id).value)
            && (GetDevice(devices, id).None? ==> r.index == |devices|)
            && forall j :: 0 <= j < |devices| && j != r.index ==> r.devices[j] == devices[j]
  {
  }

  /** The returned device is the located one after the host, env and programs edits. */
  lemma UpsertEdits(devices: seq<Dict>, id: string, host: Option<string>, env: Option<Dict>,
                    programs: Option<seq<string>>)
    ensures var r := Upserted(devices, id, host, env, programs);
            var before := if GetDevice(devices, id).None? then [Entry("id", PyStr(id))] else devices[r.index];
            r.devices[r.index] == Edit(before, host, env, programs).entry
            && r.raised == Edit(before, host, env, programs).raised
  {
  }

  /** After an upsert the same id finds the device it returned: upserting is how a device is
      ensured to exist. */
  lemma UpsertThenFind(devices: seq<Dict>, id: string, host: Option<string>, env: Option<Dict>,
                       programs: Option<seq<string>>)
    ensures var r := Upserted(devices, id, host, env, programs);
            GetDevice(r.devices, id) == Some(r.index)
  {
    var r := Upserted(devices, id, host, env, programs);
    var all := Located(devices, id);
    var i := Position(devices, id);
    assert Field(all[i], "id") == PyStr(id);
    EditKeeps(all[i], host, env, programs, "id");
    WithHostEffect(all[i], host, "id");
    assert Field(r.devices[i], "id") == PyStr(id);
    FirstMatch(r.devices, id, i);
  }

  /** A device with the id whose predecessors all lack it is the one `get_device` finds. */
  lemma {:induction false} FirstMatch(devices: seq<Dict>, id: string, i: nat)
    requires i < |devices| && Field(devices[i], "id") == PyStr(id)
    requires forall j :: 0 <= j < i ==> Field(devices[j], "id") != PyStr(id)
    ensures GetDevice(devices, id) == Some(i)
  {
    if i > 0 {
      FirstMatch(devices[1..], id, i - 1);
    }
  }

  /** The roster: the device list of devices.yaml as `load_devices` returns it, one mutable record
      per position. YAML aliases can make two positions hold the same record, so an edit through
      one shows at both. */
  class Roster {
    var devices: seq<DeviceRecord>

    constructor (devices: seq<DeviceRecord>)
      ensures this.devices == devices
    {
      this.devices := devices;
    }

    /** No record is shared by two positions. */
    predicate Valid()
      reads this
    {
      forall i, j :: 0 <= i < j < |devices| ==> devices[i] != devices[j]
    }

    /** The entries' current contents, in list order. */
    function Snapshot(): (r: seq<Dict>)
      reads this, devices
      ensures |r| == |devices| && forall i :: 0 <= i < |devices| ==> r[i] == devices[i].fields
    {
      seq(|devices|, i reads this, devices requires 0 <= i < |devices| => devices[i].fields)
    }

    /** `upsert_device(devices, device_id, host=host, env=env, programs=programs)`. The located
        record is edited in place, so every position holding that record sees the edit; with no
        shared records the roster's contents are exactly the upsert of the old contents. */
    method Upsert(id: string, host: Option<string>, env: Option<Dict>, programs: Option<seq<string>>)
      returns (device: DeviceRecord, raised: bool)
      modifies this, devices
      ensures var r := Upserted(old(Snapshot()), id, host, env, programs);
              raised == r.raised && |devices| == |r.devices| && device == devices[r.index]
              && device.fields == r.devices[r.index]
              && (forall j :: 0 <= j < |old(devices)| ==>
                    Snapshot()[j] == if devices[j] == device then r.devices[r.index] else old(Snapshot())[j])
      ensures old(Valid()) ==> Valid() && Snapshot() == Upserted(old(Snapshot()), id, host, env, programs).devices
      ensures devices[..|old(devices)|] == old(devices)
      ensures |devices| > |old(devices)| ==> fresh(device)
    {
      ghost var before := Snapshot();
      ghost var wasValid := Valid();
      var found := GetDevice(Snapshot(), id);
      if found.None? {
        device := new DeviceRecord([Entry("id", PyStr(id))]);
        devices := devices + [device];
      } else {
        device := devices[found.value];
      }
      ghost var i := Position(before, id);
      ghost var all := Snapshot();
      assert all == Located(before, id);
      assert device == devices[i];
      raised := device.Apply(host, env, programs);
      assert forall j :: 0 <= j < |devices| && devices[j] != device ==> devices[j].fields == all[j];
      if wasValid {
        assert forall j :: 0 <= j < |devices| && j != i ==> devices[j] != device;
        assert Snapshot() == all[i := device.fields];
      }
    }
  }
}
