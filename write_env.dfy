/** `write-env-file.py`: for every program of every device, the keywords listed in the program's
    `env/.env.example` are looked up in the device's `env` mapping, and the matching
    `KEY=value` lines are echoed into `/home/pi/wcl/<program>/env/.env` on the device over ssh. */
module EnvWriter {
  import opened PyText
  import opened PyValues
  import opened Selection
  import opened DevicesConfig
  import opened Plans

  // ---------------------------------------------------------------------------------------------
  // extract_keywords

  /** The keyword one line of an example file declares: the stripped text before the first `=`
      of a stripped, non-empty line that is not a `#` comment and holds an `=`. */
  function KeywordOf(line: string): (r: Option<string>)
    ensures r.Some? <==> Strip(line) != [] && !StartsWith(Strip(line), "#") && '=' in Strip(line)
    ensures r.Some? ==> '=' !in r.value && Strip(r.value) == r.value
  {
    var l := Strip(line);
    if l != [] && !StartsWith(l, "#") && '=' in l then
      var key := l[..IndexOf(l, '=')];
      StripIdempotent(key);
      assert forall c :: c in Strip(key) ==> c in key;
      Some(Strip(key))
    else None
  }

  /** The keywords of an example file's lines, in line order. */
  function Keywords(lines: seq<string>): (ks: seq<string>)
    ensures |ks| <= |lines|
  {
    if lines == [] then []
    else
      match KeywordOf(lines[0])
      case Some(k) => [k] + Keywords(lines[1..])
      case None => Keywords(lines[1..])
  }

  /** `extract_keywords(env_lines)` */
  method ExtractKeywords(envLines: seq<string>) returns (keywords: seq<string>)
    ensures keywords == Keywords(envLines)
  {
    keywords := [];
    assert envLines[0..] == envLines;
    for i := 0 to |envLines|
      invariant keywords + Keywords(envLines[i..]) == Keywords(envLines)
    {
      KeywordsFrom(envLines, i);
      var line := Strip(envLines[i]);
      if line != [] && !StartsWith(line, "#") && '=' in line {
        var key := Strip(line[..IndexOf(line, '=')]);
        assert keywords + [key] + Keywords(envLines[i + 1..]) == keywords + ([key] + Keywords(envLines[i + 1..]));
        keywords := keywords + [key];
      }
    }
    assert envLines[|envLines|..] == [];
    assert keywords + [] == keywords;
  }

  /** One line of the loop: the keywords from line `i` on are those of line `i`, then the rest. */
  lemma KeywordsFrom(lines: seq<string>, i: nat)
    requires i < |lines|
    ensures Keywords(lines[i..]) == (if KeywordOf(lines[i]).Some? then [KeywordOf(lines[i]).value] else [])
                                    + Keywords(lines[i + 1..])
  {
    assert lines[i..][1..] == lines[i + 1..];
    assert lines[i..][0] == lines[i];
  }

  /** Line `line` declares keyword `k`. */
  predicate Declares(line: string, k: string) {
    KeywordOf(line) == Some(k)
  }

  /** Every extracted keyword is declared by some line... */
  lemma {:induction false} KeywordsDeclared(lines: seq<string>, k: string)
    requires k in Keywords(lines)
    ensures exists i :: 0 <= i < |lines| && Declares(lines[i], k)
  {
    if !Declares(lines[0], k) {
      assert k in Keywords(lines[1..]) by {
        KeywordsFrom(lines, 0);
        assert lines[0..] == lines;
      }
      KeywordsDeclared(lines[1..], k);
      var i :| 0 <= i < |lines[1..]| && Declares(lines[1..][i], k);
      assert lines[i + 1] == lines[1..][i];
    }
  }

  /** ...and every declared keyword is extracted. */
  lemma {:induction false} DeclaredKeywords(lines: seq<string>, i: nat, k: string)
    requires i < |lines| && Declares(lines[i], k)
    ensures k in Keywords(lines)
  {
    KeywordsFrom(lines, 0);
    assert lines[0..] == lines;
    if i > 0 {
      assert lines[1..][i - 1] == lines[i];
      DeclaredKeywords(lines[1..], i - 1, k);
    }
  }

  /** A name that can stand before `=` in an example file and be read back unchanged. */
  predicate PlainKey(k: string) {
    k != [] && !IsSpace(k[0]) && !IsSpace(k[|k| - 1]) && '=' !in k && k[0] != '#'
  }

  /** A `KEY=value` line declares `KEY`, whatever the value holds. */
  lemma KeywordOfAssignment(k: string, v: string)
    requires PlainKey(k)
    ensures KeywordOf(k + "=" + v) == Some(k)
  {
    var line := k + "=" + v;
    assert line[0] == k[0] && line[|k|] == '=';
    assert StripStart(line) == 0;
    var b := StripEnd(line);
    assert b > |k|;
    var l := Strip(line);
    assert l == line[..b];
    assert l[|k|] == '=' && l[0] != '#';
    var i := IndexOf(l, '=');
    assert i == |k| by {
      assert forall m :: 0 <= m < |k| ==> l[m] == k[m];
    }
    assert l[..i] == k;
    assert StripStart(k) == 0;
    assert StripEnd(k) == |k|;
    assert k[0..|k|] == k;
  }

  /** Any line whose first `=` follows the text `k` declares `k` stripped, unless the stripped
      line is a comment. */
  lemma KeywordOfSpaced(k: string, v: string)
    requires '=' !in k && !StartsWith(Strip(k + "=" + v), "#")
    ensures KeywordOf(k + "=" + v) == Some(Strip(k))
  {
    var line := k + "=" + v;
    assert line[|k|] == '=';
    var a, b := StripStart(line), StripEnd(line);
    assert a <= |k| < b;
    var l := Strip(line);
    assert l == line[a..b];
    assert l[|k| - a] == '=';
    assert IndexOf(l, '=') == |k| - a by {
      assert forall m :: 0 <= m < |k| - a ==> l[m] == k[a + m];
    }
    assert line[..|k|] == k;
    assert l[..|k| - a] == line[a..|k|] == k[a..];
    assert forall m :: 0 <= m < a ==> IsSpace(k[m]) by {
      assert forall m :: 0 <= m < a ==> k[m] == line[m];
    }
    StripAfterSpaces(k, a);
  }

  /** An example file holding one `KEY=value` line per keyword. */
  function ExampleText(keys: seq<string>, vals: seq<string>): string
    requires |keys| == |vals|
  {
    if keys == [] then [] else keys[0] + "=" + vals[0] + "\n" + ExampleText(keys[1..], vals[1..])
  }

  /** Line-break-free assignments an example file can hold. */
  predicate Declarable(keys: seq<string>, vals: seq<string>) {
    |keys| == |vals| &&
    forall i :: 0 <= i < |keys| ==>
      PlainKey(keys[i]) && '\n' !in keys[i] && '\r' !in keys[i] && '\n' !in vals[i] && '\r' !in vals[i]
  }

  /** Reading an example file back gives its keywords in file order. */
  lemma ExampleKeywords(keys: seq<string>, vals: seq<string>)
    requires Declarable(keys, vals)
    ensures Keywords(ReadLines(Universal(ExampleText(keys, vals)))) == keys
  {
    ExampleLines(keys, vals);
  }

  lemma {:induction false} ExampleLines(keys: seq<string>, vals: seq<string>)
    requires Declarable(keys, vals)
    ensures '\r' !in ExampleText(keys, vals)
    ensures Keywords(ReadLines(ExampleText(keys, vals))) == keys
  {
    if keys != [] {
      var n := keys[0] + "=" + vals[0];
      var rest := ExampleText(keys[1..], vals[1..]);
      DeclarableTail(keys, vals);
      ExampleLines(keys[1..], vals[1..]);
      assert ExampleText(keys, vals) == n + "\n" + rest;
      ReadLinesCons(n, rest);
      assert n + "\n" == keys[0] + "=" + (vals[0] + "\n");
      KeywordOfAssignment(keys[0], vals[0] + "\n");
    }
  }

  lemma DeclarableTail(keys: seq<string>, vals: seq<string>)
    requires Declarable(keys, vals) && keys != []
    ensures Declarable(keys[1..], vals[1..])
    ensures var n := keys[0] + "=" + vals[0]; '\n' !in n && '\r' !in n
  {
    forall i | 0 <= i < |keys| - 1
      ensures PlainKey(keys[1..][i]) && '\n' !in keys[1..][i] && '\r' !in keys[1..][i]
      ensures '\n' !in vals[1..][i] && '\r' !in vals[1..][i]
    {
      assert keys[1..][i] == keys[i + 1] && vals[1..][i] == vals[i + 1];
    }
  }

  /** A comment line declares nothing, even when it holds an `=`. */
  lemma CommentDeclaresNothing(text: string)
    requires '=' in text
    ensures KeywordOf("#" + text).None?
  {
    var line := "#" + text;
    assert StripStart(line) == 0;
    var l := Strip(line);
    if l != [] {
      assert l[0] == '#';
      assert StartsWith(l, "#");
    }
  }

  // ---------------------------------------------------------------------------------------------
  // the `.env` contents

  /** `f"{key}={env_data[key]}"` */
  function Assignment(key: string, value: Value): (a: string)
    ensures |a| > |key| && a[|key|] == '=' && a[..|key|] == key
  {
    key + "=" + Text(value)
  }

  /** The assignments for the keywords the mapping holds, in keyword order. */
  function EnvLines(keywords: seq<string>, env: Dict): (lines: seq<string>)
    ensures lines == [] <==> forall k :: k in keywords ==> !HasKey(env, k)
    ensures forall l :: l in lines ==> l != []
  {
    if keywords == [] then []
    else
      var k := keywords[0];
      assert forall x :: x in keywords[1..] ==> x in keywords;
      (if HasKey(env, k) then [Assignment(k, OrNone(Get(env, k)))] else []) + EnvLines(keywords[1..], env)
  }

  /** The generator joined by `"\n"`; None when evaluating it raises TypeError. A test `key in
      env_data` against a list or a string that succeeds leads to `env_data[key]` with a string
      index, which only a dict accepts; `in` on any other value raises at once. */
  function EnvContents(keywords: seq<string>, env: Value): (r: Option<string>)
  {
    if keywords == [] then Some([])
    else
      match env
      case PyDict(entries) => Some(Join("\n", EnvLines(keywords, entries)))
      case PyList(items) => if exists k :: k in keywords && PyStr(k) in items then None else Some([])
      case PyStr(s) => if exists k :: k in keywords && Contains(s, k) then None else Some([])
      case _ => None
  }

  lemma {:induction false} JoinEmpty(parts: seq<string>)
    requires forall p :: p in parts ==> p != []
    ensures Join("\n", parts) == [] <==> parts == []
  {
    if parts != [] {
      assert parts[0] in parts;
    }
  }

  /** Nothing is written exactly when the mapping holds none of the keywords. */
  lemma NothingToWrite(keywords: seq<string>, env: Dict)
    ensures EnvContents(keywords, PyDict(env)) == Some([]) <==> forall k :: k in keywords ==> !HasKey(env, k)
  {
    JoinEmpty(EnvLines(keywords, env));
  }

  /** Every keyword the mapping holds is written with its value. */
  lemma {:induction false} PresentKeywordsWritten(keywords: seq<string>, env: Dict, k: string)
    requires k in keywords && HasKey(env, k)
    ensures EnvContents(keywords, PyDict(env)).Some?
    ensures Contains(EnvContents(keywords, PyDict(env)).value, Assignment(k, OrNone(Get(env, k))))
  {
    EnvLinesHas(keywords, env, k);
    JoinContains(EnvLines(keywords, env), Assignment(k, OrNone(Get(env, k))));
  }

  lemma {:induction false} EnvLinesHas(keywords: seq<string>, env: Dict, k: string)
    requires k in keywords && HasKey(env, k)
    ensures Assignment(k, OrNone(Get(env, k))) in EnvLines(keywords, env)
  {
    if keywords[0] != k {
      EnvLinesHas(keywords[1..], env, k);
    }
  }

  /** No line is written for a keyword the mapping lacks: every written line is the assignment
      of a keyword that is both declared and present. */
  lemma {:induction false} OnlyPresentKeywords(keywords: seq<string>, env: Dict, l: string)
    requires l in EnvLines(keywords, env)
    ensures exists k :: k in keywords && HasKey(env, k) && l == Assignment(k, OrNone(Get(env, k)))
  {
    var k := keywords[0];
    if HasKey(env, k) && l == Assignment(k, OrNone(Get(env, k))) {
    } else {
      OnlyPresentKeywords(keywords[1..], env, l);
      var k' :| k' in keywords[1..] && HasKey(env, k') && l == Assignment(k', OrNone(Get(env, k')));
      assert k' in keywords;
    }
  }

  /** Only a dict can yield a file: any other `env` value gives nothing or an error. */
  lemma OnlyDictWrites(keywords: seq<string>, env: Value)
    requires !env.PyDict?
    ensures EnvContents(keywords, env) == None || EnvContents(keywords, env) == Some([])
  {
  }

  // ---------------------------------------------------------------------------------------------
  // main

  /** The example files: the text of `<data_dir>/<program>/env/.env.example`, None when absent. */
  type ExampleFiles = string -> Option<string>

  /** The commands `main` hands to `os.system`. */
  datatype Command = MkdirEnv(rpi: string, program: string) | Echo(rpi: string, program: string, contents: string)

  /** The shell text of a command. */
  function Line(c: Command): string {
    match c
    case MkdirEnv(rpi, program) => "ssh " + rpi + " 'mkdir -p /home/pi/wcl/" + program + "/env'"
    case Echo(rpi, program, contents) =>
      "ssh " + rpi + " 'echo \"" + contents + "\" > /home/pi/wcl/" + program + "/env/.env'"
  }

  /** The keywords of a program's example file; none when the file is absent. */
  function ExampleKeywordsOf(examples: ExampleFiles, program: string): seq<string> {
    match examples(program)
    case None => []
    case Some(text) => Keywords(ReadLines(Universal(text)))
  }

  /** One round of the inner loop: a program that is not a str has no `strip` (AttributeError). */
  function ProgramPlan(rpi: string, env: Value, examples: ExampleFiles, program: Value): Plan<Command> {
    if !program.PyStr? then Crash()
    else
      var name := Strip(program.s);
      if name == [] then Nothing()
      else
        var keywords := ExampleKeywordsOf(examples, name);
        if keywords == [] then Nothing()
        else
          match EnvContents(keywords, env)
          case None => Crash()
          case Some(contents) =>
            if contents == [] then Nothing()
            else Plan([MkdirEnv(rpi, name), Echo(rpi, name, contents)], false)
  }

  function ProgramStep(rpi: string, env: Value, examples: ExampleFiles): Value -> Plan<Command> {
    program => ProgramPlan(rpi, env, examples, program)
  }

  /** One round of the outer loop: `device.get` on a value that is not a dict raises
      AttributeError; iterating a truthy `programs` value that is not iterable raises TypeError. */
  function DevicePlan(shared: seq<string>, examples: ExampleFiles, device: Value): Plan<Command> {
    if !device.PyDict? then Crash()
    else
      var d := device.entries;
      var rpi := Target(d);
      var programs := Programs(d, shared);
      if !Truthy(rpi) || !Truthy(programs) then Nothing()
      else
        match Iterate(programs)
        case None => Crash()
        case Some(items) => Chain(items, ProgramStep(Text(rpi), GetOr(d, "env", PyDict([])), examples))
  }

  function DeviceStep(shared: seq<string>, examples: ExampleFiles): Value -> Plan<Command> {
    device => DevicePlan(shared, examples, device)
  }

  /** What `main` does with the loaded devices and shared program list. */
  function WriteEnvPlan(devices: seq<Value>, shared: seq<string>, examples: ExampleFiles): Plan<Command> {
    Chain(devices, DeviceStep(shared, examples))
  }

  /** `main`, after loading `devices.yaml` and the program list. */
  method WriteEnvFiles(devices: seq<Value>, shared: seq<string>, examples: ExampleFiles) returns (plan: Plan<Command>)
    ensures plan == WriteEnvPlan(devices, shared, examples)
  {
    var cmds: seq<Command> := [];
    for i := 0 to |devices|
      invariant Chain(devices[..i], DeviceStep(shared, examples)) == Plan(cmds, false)
    {
      ChainStep(devices, i, DeviceStep(shared, examples));
      var device := devices[i];
      if !device.PyDict? {
        ChainStopsAt(devices, i, DeviceStep(shared, examples));
        return Plan(cmds, true);
      }
      var d := device.entries;
      var rpi := Target(d);
      if !Truthy(rpi) {
        continue;
      }
      var programs := Programs(d, shared);
      if !Truthy(programs) {
        continue;
      }
      var env := GetOr(d, "env", PyDict([]));
      var items := Iterate(programs);
      if items.None? {
        ChainStopsAt(devices, i, DeviceStep(shared, examples));
        return Plan(cmds, true);
      }
      var device_cmds, crashed := WriteDevice(Text(rpi), items.value, env, examples);
      assert DevicePlan(shared, examples, device) == Plan(device_cmds, crashed);
      if crashed {
        ChainStopsAt(devices, i, DeviceStep(shared, examples));
        return Plan(cmds + device_cmds, true);
      }
      cmds := cmds + device_cmds;
    }
    assert devices[..|devices|] == devices;
    plan := Plan(cmds, false);
  }

  /** The inner loop of `main` over one device's programs. */
  method WriteDevice(rpi: string, items: seq<Value>, env: Value, examples: ExampleFiles)
    returns (cmds: seq<Command>, crashed: bool)
    ensures Plan(cmds, crashed) == Chain(items, ProgramStep(rpi, env, examples))
  {
    cmds := [];
    for j := 0 to |items|
      invariant Chain(items[..j], ProgramStep(rpi, env, examples)) == Plan(cmds, false)
    {
      ChainStep(items, j, ProgramStep(rpi, env, examples));
      var program := items[j];
      if !program.PyStr? {
        ChainStopsAt(items, j, ProgramStep(rpi, env, examples));
        return cmds, true;
      }
      var name := Strip(program.s);
      if name == [] {
        continue;
      }
      var keywords: seq<string> := [];
      match examples(name) {
        case None =>
        case Some(text) =>
          keywords := ExtractKeywords(ReadLines(Universal(text)));
      }
      if keywords == [] {
        continue;
      }
      match EnvContents(keywords, env) {
        case None =>
          ChainStopsAt(items, j, ProgramStep(rpi, env, examples));
          return cmds, true;
        case Some(contents) =>
          if contents != [] {
            cmds := cmds + [MkdirEnv(rpi, name), Echo(rpi, name, contents)];
          }
      }
    }
    assert items[..|items|] == items;
    crashed := false;
  }

  // ---------------------------------------------------------------------------------------------
  // what main promises

  /** Nothing is issued for an empty device list. */
  lemma NoDevicesNoCommands(shared: seq<string>, examples: ExampleFiles)
    ensures WriteEnvPlan([], shared, examples) == Nothing()
  {
  }

  /** A program writes either nothing or its `env` directory and then its `.env` file, holding
      every declared keyword the device's mapping provides. */
  lemma ProgramWrites(rpi: string, env: Value, examples: ExampleFiles, program: Value)
    requires ProgramPlan(rpi, env, examples, program).cmds != []
    ensures program.PyStr? && env.PyDict? && Strip(program.s) != []
    ensures var name := Strip(program.s);
            var keywords := ExampleKeywordsOf(examples, name);
            var contents := Join("\n", EnvLines(keywords, env.entries));
            ProgramPlan(rpi, env, examples, program) ==
              Plan([MkdirEnv(rpi, name), Echo(rpi, name, contents)], false) &&
            (forall k :: k in keywords && HasKey(env.entries, k) ==>
               Contains(contents, Assignment(k, OrNone(Get(env.entries, k)))))
  {
    var name := Strip(program.s);
    var keywords := ExampleKeywordsOf(examples, name);
    forall k | k in keywords && HasKey(env.entries, k)
      ensures Contains(Join("\n", EnvLines(keywords, env.entries)), Assignment(k, OrNone(Get(env.entries, k))))
    {
      PresentKeywordsWritten(keywords, env.entries, k);
    }
  }

  /** A program whose example file declares no keyword, or is missing, writes nothing. */
  lemma NoKeywordsNoWrite(rpi: string, env: Value, examples: ExampleFiles, program: Value)
    requires program.PyStr? && ExampleKeywordsOf(examples, Strip(program.s)) == []
    ensures ProgramPlan(rpi, env, examples, program) == Nothing()
  {
  }

  /** The script ends on an exception exactly when one device's round raises. */
  lemma WriteEnvCrashes(devices: seq<Value>, shared: seq<string>, examples: ExampleFiles)
    ensures WriteEnvPlan(devices, shared, examples).crashed <==>
              exists i :: 0 <= i < |devices| && DevicePlan(shared, examples, devices[i]).crashed
  {
    ChainCrashed(devices, DeviceStep(shared, examples));
  }

  /** The commands for the first `i` devices are issued before any later device's. */
  lemma WriteEnvInOrder(devices: seq<Value>, shared: seq<string>, examples: ExampleFiles, i: nat)
    requires i <= |devices|
    ensures WriteEnvPlan(devices[..i], shared, examples).cmds <= WriteEnvPlan(devices, shared, examples).cmds
  {
    ChainPrefix(devices, i, DeviceStep(shared, examples));
  }
}
