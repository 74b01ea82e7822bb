/** `main` of src/run-python-script.py: every device's workflow is submitted, the pending futures are
    drained round by round, and the collected `(device_id, msg, ok)` summaries are printed in sorted
    order, hiding the devices that only said `done`. */
module ScriptRunner {
  import opened PyValues
  import opened Selection
  import opened RemoteExecutor

  /** One `(device_id, msg, ok)` tuple of `summaries`; a device without an `id` has Python's None. */
  datatype Summary = Summary(id: Option<string>, msg: string, ok: bool)

  /** What `main` prints: the heartbeat lines (recorded as the pending counts they report) and the
      final summary's blocks in `printed`; `raised` when the summary's `sorted` raised TypeError. */
  datatype FleetRun = FleetRun(printed: seq<string>, summaries: seq<Summary>, heartbeats: seq<nat>, raised: bool)

  const NoDevicesMessage: string := "No devices found in devices.yaml."

  /** `device.get("id")` of a device whose `id` is text or nothing. */
  function IdOf(device: Dict): (r: Option<string>)
    ensures Field(device, "id").PyStr? ==> r == Some(Field(device, "id").s)
    ensures !Field(device, "id").PyStr? ==> r == None
  {
    var v := Field(device, "id");
    if v.PyStr? then Some(v.s) else None
  }

  /** `data_dir / "script.py"` */
  function ScriptPath(dataDir: string): string {
    JoinPath(dataDir, "script.py")
  }

  /** The summary of device `i`, given the temporary directory its worker used and what its remote
      side did (including the manifest its worker read back). */
  function SummaryOf(devices: seq<Dict>, dataDir: string, tmpDirs: seq<string>, remotes: seq<Remote>, i: nat)
    : Summary
    requires i < |devices| == |tmpDirs| == |remotes|
  {
    var o := Process(devices[i], dataDir, ScriptPath(dataDir), tmpDirs[i], remotes[i]);
    Summary(IdOf(devices[i]), o.msg, o.ok)
  }

  /** The summaries in device order: what the workers return, whatever order they finish in. */
  function Expected(devices: seq<Dict>, dataDir: string, tmpDirs: seq<string>, remotes: seq<Remote>)
    : (r: seq<Summary>)
    requires |devices| == |tmpDirs| == |remotes|
    ensures |r| == |devices|
    ensures forall i :: 0 <= i < |devices| ==> r[i] == SummaryOf(devices, dataDir, tmpDirs, remotes, i)
  {
    seq(|devices|, i requires 0 <= i < |devices| => SummaryOf(devices, dataDir, tmpDirs, remotes, i))
  }

  /** Each device is a mapping whose `id` and `host` are text or absent. */
  predicate WellFormed(devices: seq<Dict>) {
    forall i :: 0 <= i < |devices| ==> TextOrNone(devices[i], "id") && TextOrNone(devices[i], "host")
  }

  // ---------------------------------------------------------------------------------------------
  // The pending-set loop

  /** What `main` prints when `<data_dir>/script.py` does not exist. */
  function ScriptMissingMessage(dataDir: string): string {
    "Script not found: " + ScriptPath(dataDir)
  }

  /** `main` with the device list loaded; `scriptExists` says whether `script.py` is there, and at
      most `timeouts` rounds of `wait` return with nothing done. */
  method RunAll(scriptExists: bool, devices: seq<Dict>, dataDir: string, tmpDirs: seq<string>, remotes: seq<Remote>,
                timeouts: nat)
    returns (run: FleetRun)
    requires |devices| == |tmpDirs| == |remotes|
    requires WellFormed(devices)
    ensures !scriptExists ==> run == FleetRun([ScriptMissingMessage(dataDir)], [], [], false)
    ensures scriptExists && devices == [] ==> run == FleetRun([NoDevicesMessage], [], [], false)
    ensures scriptExists && devices != [] ==>
              var expected := Expected(devices, dataDir, tmpDirs, remotes);
              multiset(run.summaries) == multiset(expected)
              && (run.raised <==> Mixed(expected))
              && run.printed == (if run.raised then [] else Report(expected))
    ensures devices != [] ==> |run.heartbeats| < |devices| + timeouts
    ensures forall k :: 0 <= k < |run.heartbeats| ==> 0 < run.heartbeats[k] <= |devices|
    ensures forall k, l :: 0 <= k < l < |run.heartbeats| ==> run.heartbeats[k] >= run.heartbeats[l]
    ensures timeouts == 0 ==>
              (forall k :: 0 <= k < |run.heartbeats| ==> run.heartbeats[k] < |devices|)
              && (forall k, l :: 0 <= k < l < |run.heartbeats| ==> run.heartbeats[k] > run.heartbeats[l])
  {
    if !scriptExists {
      return FleetRun([ScriptMissingMessage(dataDir)], [], [], false);
    }
    if devices == [] {
      return FleetRun([NoDevicesMessage], [], [], false);
    }
    var results, pending := Submit(devices, dataDir, tmpDirs, remotes);
    var summaries, heartbeats := Drain(results, pending, timeouts);
    ReportDeterminedByContents(summaries, results);
    MixedByContents(summaries, results);
    var raised := Mixed(summaries);
    run := FleetRun(if raised then [] else Report(summaries), summaries, heartbeats, raised);
  }

  /** The dict comprehension of lines 124-127: one future per device, keyed here by its index. Each
      worker's result is taken as a function of its own device and its remote side's behaviour
      and manifest, so each is run as it is submitted. */
  method Submit(devices: seq<Dict>, dataDir: string, tmpDirs: seq<string>, remotes: seq<Remote>)
    returns (results: seq<Summary>, pending: set<nat>)
    requires |devices| == |tmpDirs| == |remotes|
    requires WellFormed(devices)
    ensures results == Expected(devices, dataDir, tmpDirs, remotes)
    ensures (forall k: nat :: k in pending <==> k < |devices|) && |pending| == |devices|
  {
    ghost var expected := Expected(devices, dataDir, tmpDirs, remotes);
    results := [];
    pending := {};
    while |results| < |devices|
      invariant |results| <= |devices|
      invariant results == expected[..|results|]
      invariant forall k: nat :: k in pending <==> k < |results|
      invariant |pending| == |results|
    {
      var i := |results|;
      var o := ProcessDevice(devices[i], dataDir, ScriptPath(dataDir), tmpDirs[i], remotes[i]);
      assert i !in pending;
      pending := pending + {i};
      results := results + [Summary(IdOf(devices[i]), o.msg, o.ok)];
    }
  }

  /** The `while pending` loop of lines 133-147. Each round `wait` either reports a non-empty subset
      of the pending futures done, whose results are appended, or times out with none done, which
      at most `timeouts` rounds do; after either, a heartbeat reports how many remain while any do. */
  method Drain(results: seq<Summary>, pending0: set<nat>, timeouts: nat)
    returns (summaries: seq<Summary>, heartbeats: seq<nat>)
    requires (forall k: nat :: k in pending0 <==> k < |results|) && |pending0| == |results|
    ensures multiset(summaries) == multiset(results)
    ensures results != [] ==> |heartbeats| < |results| + timeouts
    ensures forall k :: 0 <= k < |heartbeats| ==> 0 < heartbeats[k] <= |results|
    ensures forall k, l :: 0 <= k < l < |heartbeats| ==> heartbeats[k] >= heartbeats[l]
    ensures timeouts == 0 ==>
              (forall k :: 0 <= k < |heartbeats| ==> heartbeats[k] < |results|)
              && (forall k, l :: 0 <= k < l < |heartbeats| ==> heartbeats[k] > heartbeats[l])
  {
    var n := |results|;
    var pending := pending0;
    var left: nat := timeouts;
    ghost var stalls: nat := 0;
    summaries := [];
    heartbeats := [];
    ghost var unseen := StartTracking(results, pending);
    while pending != {}
      invariant left + stalls == timeouts
      invariant Tracks(unseen, n, pending)
      invariant Accounted(results, summaries, unseen)
      invariant Countdown(heartbeats, |pending|, n, stalls)
      invariant pending == {} ==> n == 0 || |heartbeats| < n + stalls
      decreases |pending|, left
    {
      var done :| done <= pending && (done == {} ==> left > 0);
      if done == {} {
        StallStep(heartbeats, |pending|, n, stalls);
        heartbeats := heartbeats + [|pending|];
        left, stalls := left - 1, stalls + 1;
      } else {
        ghost var wasPending := pending;
        pending := pending - done;
        Shrinks(wasPending, done);
        summaries, unseen := Collect(results, done, pending, summaries, unseen);
        CountdownStep(heartbeats, |wasPending|, |pending|, n, stalls);
        if pending != {} {
          heartbeats := heartbeats + [|pending|];
        }
      }
    }
    CountdownEnds(heartbeats, n, stalls, timeouts);
  }

  /** Before any round every future is unseen, in index order. */
  lemma StartTracking(results: seq<Summary>, pending: set<nat>) returns (unseen: seq<nat>)
    requires (forall k: nat :: k in pending <==> k < |results|) && |pending| == |results|
    ensures Tracks(unseen, |results|, pending) && Accounted(results, [], unseen)
  {
    var n := |results|;
    unseen := seq(n, k requires 0 <= k < n => k);
    assert Image(results, unseen) == results;
    forall x: nat ensures x in pending <==> x in unseen {
      if x < n {
        assert unseen[x] == x;
      }
    }
  }

  /** The heartbeats so far: each at most `n` and at least the current count, never rising, and
      no more of them than the futures collected plus the rounds that timed out (`stalls`); before
      any timeout, each is below `n` and lower than the one before. */
  predicate Countdown(heartbeats: seq<nat>, pending: nat, n: nat, stalls: nat) {
    pending <= n
    && |heartbeats| + pending <= n + stalls
    && (forall k :: 0 <= k < |heartbeats| ==> 0 < heartbeats[k] <= n && pending <= heartbeats[k])
    && (forall k, l :: 0 <= k < l < |heartbeats| ==> heartbeats[k] >= heartbeats[l])
    && (stalls == 0 ==>
          (forall k :: 0 <= k < |heartbeats| ==> heartbeats[k] < n)
          && (forall k, l :: 0 <= k < l < |heartbeats| ==> heartbeats[k] > heartbeats[l]))
  }

  /** A round that leaves fewer futures pending keeps the countdown, heartbeat or not. */
  lemma CountdownStep(heartbeats: seq<nat>, before: nat, after: nat, n: nat, stalls: nat)
    requires Countdown(heartbeats, before, n, stalls) && after < before
    ensures Countdown(heartbeats, after, n, stalls)
    ensures after > 0 ==> Countdown(heartbeats + [after], after, n, stalls)
    ensures |heartbeats| < n + stalls
  {
  }

  /** Once nothing is pending the countdown gives the heartbeat bounds `Drain` promises. */
  lemma CountdownEnds(heartbeats: seq<nat>, n: nat, stalls: nat, timeouts: nat)
    requires Countdown(heartbeats, 0, n, stalls) && stalls <= timeouts
    requires n == 0 || |heartbeats| < n + stalls
    ensures n != 0 ==> |heartbeats| < n + timeouts
    ensures forall k :: 0 <= k < |heartbeats| ==> 0 < heartbeats[k] <= n
    ensures forall k, l :: 0 <= k < l < |heartbeats| ==> heartbeats[k] >= heartbeats[l]
    ensures timeouts == 0 ==>
              (forall k :: 0 <= k < |heartbeats| ==> heartbeats[k] < n)
              && (forall k, l :: 0 <= k < l < |heartbeats| ==> heartbeats[k] > heartbeats[l])
  {
  }

  /** A round that times out repeats the current count. */
  lemma StallStep(heartbeats: seq<nat>, pending: nat, n: nat, stalls: nat)
    requires Countdown(heartbeats, pending, n, stalls) && 0 < pending
    ensures Countdown(heartbeats + [pending], pending, n, stalls + 1)
  {
  }

  /** `for future in done: summaries.append(...)`, in whatever order the set yields them. */
  method Collect(results: seq<Summary>, done: set<nat>, pending: set<nat>, summaries0: seq<Summary>,
                 ghost unseen0: seq<nat>)
    returns (summaries: seq<Summary>, ghost unseen: seq<nat>)
    requires Tracks(unseen0, |results|, pending + done) && pending !! done
    requires Accounted(results, summaries0, unseen0)
    ensures Tracks(unseen, |results|, pending)
    ensures Accounted(results, summaries, unseen)
  {
    summaries, unseen := summaries0, unseen0;
    var rest := done;
    while rest != {}
      invariant Tracks(unseen, |results|, pending + rest) && pending !! rest
      invariant Accounted(results, summaries, unseen)
      decreases |rest|
    {
      var f :| f in rest;
      ghost var p := Locate(unseen, f);
      CollectStep(results, summaries, unseen, pending + rest, p);
      SplitOff(pending, rest, f);
      unseen := unseen[..p] + unseen[p + 1..];
      summaries := summaries + [results[f]];
      rest := rest - {f};
    }
  }

  lemma SplitOff(pending: set<nat>, rest: set<nat>, f: nat)
    requires pending !! rest && f in rest
    ensures (pending + rest) - {f} == pending + (rest - {f}) && pending !! (rest - {f})
  {
  }

  /** `unseen` lists, once each, exactly the futures in `s`, all below `n`. */
  predicate Tracks(unseen: seq<nat>, n: nat, s: set<nat>) {
    (forall k :: 0 <= k < |unseen| ==> unseen[k] < n) && Distinct(unseen) && Elements(unseen) == s
    && |unseen| == |s|
  }

  /** The collected summaries and those of the unseen futures make up all the results. */
  predicate Accounted(results: seq<Summary>, summaries: seq<Summary>, unseen: seq<nat>)
    requires forall k :: 0 <= k < |unseen| ==> unseen[k] < |results|
  {
    multiset(summaries) + multiset(Image(results, unseen)) == multiset(results)
  }

  /** Collecting the future at position `p` of the unseen ones. */
  lemma CollectStep(results: seq<Summary>, summaries: seq<Summary>, unseen: seq<nat>, s: set<nat>, p: nat)
    requires Tracks(unseen, |results|, s) && p < |unseen|
    requires Accounted(results, summaries, unseen)
    ensures var unseen' := unseen[..p] + unseen[p + 1..];
            Tracks(unseen', |results|, s - {unseen[p]})
            && Accounted(results, summaries + [results[unseen[p]]], unseen')
  {
    Remove(results, unseen, p);
    DropDistinct(unseen, p);
    var unseen' := unseen[..p] + unseen[p + 1..];
    assert forall k :: 0 <= k < |unseen'| ==> unseen'[k] in unseen;
  }

  /** Dropping one element keeps the others distinct and the element gone. */
  lemma DropDistinct(s: seq<nat>, p: nat)
    requires Distinct(s) && p < |s|
    ensures var t := s[..p] + s[p + 1..];
            Distinct(t) && Elements(t) == Elements(s) - {s[p]}
  {
    var t := s[..p] + s[p + 1..];
    assert forall k :: 0 <= k < |t| ==> t[k] == if k < p then s[k] else s[k + 1];
    forall x ensures x in t <==> x in s && x != s[p] {
      if x in s && x != s[p] {
        var k :| 0 <= k < |s| && s[k] == x;
        assert k != p;
        assert t[if k < p then k else k - 1] == x;
      }
    }
  }

  /** The members of a sequence of indices. */
  function Elements(s: seq<nat>): (r: set<nat>)
    ensures forall x :: x in r <==> x in s
  {
    set x | x in s
  }

  predicate Distinct(s: seq<nat>) {
    forall k, l :: 0 <= k < l < |s| ==> s[k] != s[l]
  }

  /** The summaries of the futures named by `ids`, in that order. */
  function Image(xs: seq<Summary>, ids: seq<nat>): (r: seq<Summary>)
    requires forall k :: 0 <= k < |ids| ==> ids[k] < |xs|
    ensures |r| == |ids| && forall k :: 0 <= k < |ids| ==> r[k] == xs[ids[k]]
  {
    seq(|ids|, k requires 0 <= k < |ids| => xs[ids[k]])
  }

  /** The position of a member of a sequence. */
  lemma Locate(s: seq<nat>, x: nat) returns (p: nat)
    requires x in s
    ensures p < |s| && s[p] == x
  {
    p :| 0 <= p < |s| && s[p] == x;
  }

  /** Dropping one future from the unseen ones moves its summary out of their image. */
  lemma Remove(xs: seq<Summary>, ids: seq<nat>, p: nat)
    requires forall k :: 0 <= k < |ids| ==> ids[k] < |xs|
    requires p < |ids|
    ensures var ids' := ids[..p] + ids[p + 1..];
            multiset(Image(xs, ids)) == multiset(Image(xs, ids')) + multiset{xs[ids[p]]}
  {
    var ids' := ids[..p] + ids[p + 1..];
    var img := Image(xs, ids);
    assert img == img[..p] + [xs[ids[p]]] + img[p + 1..];
    assert Image(xs, ids') == img[..p] + img[p + 1..];
  }

  /** Removing a non-empty subset leaves strictly fewer pending futures. */
  lemma Shrinks(pending: set<nat>, done: set<nat>)
    requires done != {} && done <= pending
    ensures |pending - done| < |pending|
    ensures (pending - done) + done == pending && (pending - done) !! done
  {
    var x :| x in done;
    assert pending - done <= pending - {x};
    SubsetCard(pending - done, pending - {x});
  }

  lemma {:induction false} SubsetCard(a: set<nat>, b: set<nat>)
    requires a <= b
    ensures |a| <= |b|
    decreases |b|
  {
    if a != {} {
      var x :| x in a;
      SubsetCard(a - {x}, b - {x});
    }
  }

  // ---------------------------------------------------------------------------------------------
  // Python's ordering of the summary tuples

  /** Python's `s <= t` on str: lexicographic by code point, a prefix first. */
  predicate StrLe(s: string, t: string)
    decreases |s|
  {
    s == [] || (t != [] && (s[0] < t[0] || (s[0] == t[0] && StrLe(s[1..], t[1..]))))
  }

  lemma {:induction false} StrLeTotal(s: string, t: string)
    ensures StrLe(s, t) || StrLe(t, s)
    decreases |s|
  {
    if s != [] && t != [] && s[0] == t[0] {
      StrLeTotal(s[1..], t[1..]);
    }
  }

  lemma {:induction false} StrLeAntisymmetric(s: string, t: string)
    requires StrLe(s, t) && StrLe(t, s)
    ensures s == t
    decreases |s|
  {
    if s != [] {
      StrLeAntisymmetric(s[1..], t[1..]);
      assert s == [s[0]] + s[1..] && t == [t[0]] + t[1..];
    }
  }

  lemma {:induction false} StrLeTransitive(s: string, t: string, u: string)
    requires StrLe(s, t) && StrLe(t, u)
    ensures StrLe(s, u)
    decreases |s|
  {
    if s != [] && t[0] == s[0] && u[0] == t[0] {
      StrLeTransitive(s[1..], t[1..], u[1..]);
    }
  }

  /** Python's `a < b` on two summary tuples, comparing the first position where they differ; None
      when that comparison raises TypeError (a None id against a str id). */
  function PyLess(a: Summary, b: Summary): Option<bool> {
    if a.id != b.id then
      if a.id.Some? && b.id.Some? then Some(StrLe(a.id.value, b.id.value)) else None
    else if a.msg != b.msg then Some(StrLe(a.msg, b.msg))
    else Some(!a.ok && b.ok)
  }

  /** The total order the corrected summary sort uses: a None id before every str id, otherwise as
      Python compares the tuples. */
  predicate SummaryLe(a: Summary, b: Summary) {
    if a.id != b.id then a.id.None? || (b.id.Some? && StrLe(a.id.value, b.id.value))
    else if a.msg != b.msg then StrLe(a.msg, b.msg)
    else !a.ok || b.ok
  }

  /** Where Python can compare two summaries, the corrected order agrees with it; where it cannot,
      one id is None and the other is not. */
  lemma PyLessAgrees(a: Summary, b: Summary)
    ensures PyLess(a, b).None? <==> a.id.None? != b.id.None?
    ensures PyLess(a, b).Some? ==> (PyLess(a, b).value <==> SummaryLe(a, b) && a != b)
  {
    if a.id != b.id && a.id.Some? && b.id.Some? {
      assert a != b;
    } else if a.id == b.id && a.msg != b.msg {
      assert a != b;
    }
  }

  lemma SummaryLeTotal(a: Summary, b: Summary)
    ensures SummaryLe(a, b) || SummaryLe(b, a)
  {
    if a.id != b.id && a.id.Some? && b.id.Some? {
      StrLeTotal(a.id.value, b.id.value);
    } else if a.id == b.id && a.msg != b.msg {
      StrLeTotal(a.msg, b.msg);
    }
  }

  lemma SummaryLeAntisymmetric(a: Summary, b: Summary)
    requires SummaryLe(a, b) && SummaryLe(b, a)
    ensures a == b
  {
    if a.id != b.id {
      StrLeAntisymmetric(a.id.value, b.id.value);
    } else if a.msg != b.msg {
      StrLeAntisymmetric(a.msg, b.msg);
    }
  }

  lemma SummaryLeTransitive(a: Summary, b: Summary, c: Summary)
    requires SummaryLe(a, b) && SummaryLe(b, c)
    ensures SummaryLe(a, c)
  {
    if a.id.Some? && b.id.Some? && c.id.Some? {
      if a.id != b.id && b.id != c.id {
        StrLeTransitive(a.id.value, b.id.value, c.id.value);
        if a.id == c.id {
          StrLeAntisymmetric(a.id.value, b.id.value);
        }
      }
    }
    if a.id == b.id && b.id == c.id && a.msg != b.msg && b.msg != c.msg {
      StrLeTransitive(a.msg, b.msg, c.msg);
      if a.msg == c.msg {
        StrLeAntisymmetric(a.msg, b.msg);
      }
    }
  }

  // ---------------------------------------------------------------------------------------------
  // `sorted(summaries)`

  predicate Sorted(s: seq<Summary>) {
    forall i, j :: 0 <= i < j < |s| ==> SummaryLe(s[i], s[j])
  }

  /** `x` placed before the first element it precedes. */
  function Insert(x: Summary, s: seq<Summary>): (r: seq<Summary>)
    requires Sorted(s)
    ensures Sorted(r) && multiset(r) == multiset(s) + multiset{x}
  {
    if s == [] || SummaryLe(x, s[0]) then
      InsertFirst(x, s);
      [x] + s
    else
      var t := Insert(x, s[1..]);
      InsertLater(x, s, t);
      [s[0]] + t
  }

  lemma InsertFirst(x: Summary, s: seq<Summary>)
    requires Sorted(s) && (s == [] || SummaryLe(x, s[0]))
    ensures Sorted([x] + s)
  {
    forall j | 0 < j < |s| ensures SummaryLe(x, s[j]) {
      SummaryLeTransitive(x, s[0], s[j]);
    }
  }

  lemma InsertLater(x: Summary, s: seq<Summary>, t: seq<Summary>)
    requires Sorted(s) && s != [] && !SummaryLe(x, s[0])
    requires Sorted(t) && multiset(t) == multiset(s[1..]) + multiset{x}
    ensures Sorted([s[0]] + t) && multiset([s[0]] + t) == multiset(s) + multiset{x}
  {
    SummaryLeTotal(x, s[0]);
    assert s == [s[0]] + s[1..];
    forall j | 0 <= j < |t| ensures SummaryLe(s[0], t[j]) {
      assert t[j] in multiset(t);
      if t[j] != x {
        assert t[j] in multiset(s[1..]);
        var k :| 0 <= k < |s[1..]| && s[1..][k] == t[j];
        assert s[k + 1] == t[j];
      }
    }
  }

  /** The summaries in the corrected order: sorted, and a permutation of its input. */
  function Sort(s: seq<Summary>): (r: seq<Summary>)
    ensures Sorted(r) && multiset(r) == multiset(s)
  {
    if s == [] then []
    else
      assert s == [s[0]] + s[1..];
      Insert(s[0], Sort(s[1..]))
  }

  /** The first element of a sorted sequence precedes all of its elements. */
  lemma SortedHead(a: seq<Summary>, e: Summary)
    requires Sorted(a) && e in multiset(a)
    ensures SummaryLe(a[0], e)
  {
    var i :| 0 <= i < |a| && a[i] == e;
    if i == 0 {
      SummaryLeTotal(e, e);
    }
  }

  /** A sorted arrangement is fixed by its contents. */
  lemma {:induction false} SortedUnique(a: seq<Summary>, b: seq<Summary>)
    requires Sorted(a) && Sorted(b) && multiset(a) == multiset(b)
    ensures a == b
  {
    assert |a| == |multiset(a)| && |b| == |multiset(b)|;
    if a != [] {
      SameHead(a, b);
      SortedTail(a);
      SortedTail(b);
      SortedUnique(a[1..], b[1..]);
      assert a == [a[0]] + a[1..] && b == [b[0]] + b[1..];
    }
  }

  /** Two sorted arrangements of the same entries start alike. */
  lemma SameHead(a: seq<Summary>, b: seq<Summary>)
    requires Sorted(a) && Sorted(b) && multiset(a) == multiset(b) && a != [] && b != []
    ensures a[0] == b[0]
  {
    assert a[0] in multiset(a) && b[0] in multiset(b);
    SortedHead(a, b[0]);
    SortedHead(b, a[0]);
    SummaryLeAntisymmetric(a[0], b[0]);
  }

  /** The tail of a sorted non-empty sequence is sorted and holds the rest of its contents. */
  lemma SortedTail(a: seq<Summary>)
    requires Sorted(a) && a != []
    ensures Sorted(a[1..]) && multiset(a[1..]) == multiset(a) - multiset{a[0]}
  {
    assert a == [a[0]] + a[1..];
  }

  // ---------------------------------------------------------------------------------------------
  // The printed summary

  /** An entry is printed when its message is neither empty nor `done`. */
  predicate Visible(e: Summary) {
    e.msg != "" && e.msg != "done"
  }

  /** The visible entries, in order. */
  function Shown(s: seq<Summary>): (r: seq<Summary>)
    ensures forall e :: e in r <==> e in s && Visible(e)
    ensures Sorted(s) ==> Sorted(r)
  {
    if s == [] then []
    else
      var t := Shown(s[1..]);
      assert forall e :: e in s[1..] ==> e in s;
      assert Sorted(s) ==> forall e :: e in t ==> SummaryLe(s[0], e) by {
        if Sorted(s) {
          forall e | e in t ensures SummaryLe(s[0], e) {
            var j :| 0 <= j < |s[1..]| && s[1..][j] == e;
            assert s[j + 1] == e;
          }
        }
      }
      if Visible(s[0]) then [s[0]] + t else t
  }

  /** `f"Device {device_id}:\n{msg}\n"` followed by the newline `print` adds. */
  function Block(e: Summary): string {
    "Device " + (match e.id case None => "None" case Some(s) => s) + ":\n" + e.msg + "\n\n"
  }

  /** The summary `main` prints, with None ids ordered first. */
  function Report(summaries: seq<Summary>): (r: seq<string>)
    ensures |r| == |Shown(Sort(summaries))|
    ensures forall k :: 0 <= k < |r| ==> r[k] == Block(Shown(Sort(summaries))[k])
  {
    var s := Shown(Sort(summaries));
    seq(|s|, k requires 0 <= k < |s| => Block(s[k]))
  }

  /** The order in which the futures completed does not change the printed summary. */
  lemma ReportDeterminedByContents(a: seq<Summary>, b: seq<Summary>)
    requires multiset(a) == multiset(b)
    ensures Report(a) == Report(b)
  {
    SortedUnique(Sort(a), Sort(b));
  }

  /** Every entry with something to say is printed. */
  lemma ReportShowsVisible(summaries: seq<Summary>, e: Summary)
    requires e in summaries && Visible(e)
    ensures Block(e) in Report(summaries)
  {
    var sorted := Sort(summaries);
    assert e in multiset(sorted);
    var s := Shown(sorted);
    assert e in s;
    var k :| 0 <= k < |s| && s[k] == e;
    assert Report(summaries)[k] == Block(e);
  }

  /** Every printed block is that of an entry with something to say. */
  lemma ReportOnlyVisible(summaries: seq<Summary>, k: nat)
    requires k < |Report(summaries)|
    ensures exists x :: x in summaries && Visible(x) && Report(summaries)[k] == Block(x)
  {
    var sorted := Sort(summaries);
    var s := Shown(sorted);
    var x := s[k];
    assert x in s;
    assert x in multiset(sorted);
    assert x in summaries;
  }

  /** With the corrected order, every device whose workflow failed is printed, whatever order the
      workers finished in. */
  lemma CorrectedPrintsEveryFailure(devices: seq<Dict>, dataDir: string, tmpDirs: seq<string>,
                                    remotes: seq<Remote>, i: nat)
    requires i < |devices| == |tmpDirs| == |remotes|
    requires !SummaryOf(devices, dataDir, tmpDirs, remotes, i).ok
    ensures Block(SummaryOf(devices, dataDir, tmpDirs, remotes, i)) in Report(Expected(devices, dataDir, tmpDirs, remotes))
  {
    FailureIsReported(devices[i], dataDir, ScriptPath(dataDir), tmpDirs[i], remotes[i]);
    var xs := Expected(devices, dataDir, tmpDirs, remotes);
    assert xs[i] in xs;
    ReportShowsVisible(xs, xs[i]);
  }

  /** As written, a fleet that mixes devices with and without an id prints no summary at all;
      any other fleet prints every device whose workflow failed. */
  lemma EveryFailureIsPrinted(devices: seq<Dict>, dataDir: string, tmpDirs: seq<string>, remotes: seq<Remote>,
                              i: nat)
    requires i < |devices| == |tmpDirs| == |remotes|
    requires !SummaryOf(devices, dataDir, tmpDirs, remotes, i).ok
    ensures var xs := Expected(devices, dataDir, tmpDirs, remotes);
            (AsWrittenReport(xs).None? <==> Mixed(xs))
            && (AsWrittenReport(xs).Some? ==> Block(SummaryOf(devices, dataDir, tmpDirs, remotes, i)) in AsWrittenReport(xs).value)
  {
    CorrectedPrintsEveryFailure(devices, dataDir, tmpDirs, remotes, i);
  }

  // ---------------------------------------------------------------------------------------------
  // The summary as written: `sorted` over tuples whose ids may be None

  /** Some summary has a None id and another a str id. */
  predicate Mixed(s: seq<Summary>) {
    (exists i :: 0 <= i < |s| && s[i].id.None?) && (exists j :: 0 <= j < |s| && s[j].id.Some?)
  }

  /** Whether ids are mixed depends only on which summaries there are, not on their order. */
  lemma MixedByContents(a: seq<Summary>, b: seq<Summary>)
    requires multiset(a) == multiset(b)
    ensures Mixed(a) == Mixed(b)
  {
    if Mixed(a) { MixedCarries(a, b); }
    if Mixed(b) { MixedCarries(b, a); }
  }

  lemma MixedCarries(a: seq<Summary>, b: seq<Summary>)
    requires multiset(a) == multiset(b) && Mixed(a)
    ensures Mixed(b)
  {
    var i :| 0 <= i < |a| && a[i].id.None?;
    var j :| 0 <= j < |a| && a[j].id.Some?;
    assert a[i] in multiset(b) && a[j] in multiset(b);
    var i' :| 0 <= i' < |b| && b[i'] == a[i];
    var j' :| 0 <= j' < |b| && b[j'] == a[j];
  }

  /** Lines 150-152 as written: `sorted` raises TypeError on mixed ids, so nothing is printed;
      otherwise the Python order and the corrected order agree. */
  function AsWrittenReport(summaries: seq<Summary>): Option<seq<string>> {
    if Mixed(summaries) then None else Some(Report(summaries))
  }

  /** Any arrangement of mixed summaries has a neighbouring pair Python cannot compare, so `sorted`
      cannot confirm its order without raising. */
  lemma {:induction false} MixedHasIncomparableNeighbours(s: seq<Summary>)
    requires Mixed(s)
    ensures exists k :: 0 <= k < |s| - 1 && PyLess(s[k], s[k + 1]).None?
  {
    var i :| 0 <= i < |s| && s[i].id.None?;
    var j :| 0 <= j < |s| && s[j].id.Some?;
    assert i != j;
    assert 1 < |s|;
    if s[0].id.None? == s[1].id.None? {
      if s[0].id.None? {
        assert s[1..][j - 1].id.Some? && s[1..][0].id.None?;
      } else {
        assert s[1..][i - 1].id.None? && s[1..][0].id.Some?;
      }
      MixedHasIncomparableNeighbours(s[1..]);
      var k :| 0 <= k < |s[1..]| - 1 && PyLess(s[1..][k], s[1..][k + 1]).None?;
      assert s[1..][k] == s[k + 1] && s[1..][k + 1] == s[k + 2];
    } else {
      assert PyLess(s[0], s[1]).None?;
    }
  }

  /** Without mixed ids the summary is printed as the corrected order prints it. */
  lemma AsWrittenAgreesUnmixed(summaries: seq<Summary>)
    requires !Mixed(summaries)
    ensures AsWrittenReport(summaries) == Some(Report(summaries))
  {
  }

  /** A fleet with one device that succeeded and one without an id (here skipped for having no
      address either). */
  function MixedExample(): seq<Summary> {
    [Summary(Some("a"), "done", true), Summary(None, SkipMessage, false)]
  }

  /** On that fleet the script raises before printing, so the skip message is never shown ... */
  lemma MixedIdsHideFailure()
    ensures AsWrittenReport(MixedExample()) == None
  {
    var s := MixedExample();
    assert s[1].id.None? && s[0].id.Some?;
  }

  /** ... while the corrected summary prints it. */
  lemma CorrectedShowsSkip()
    ensures Report(MixedExample()) == [Block(Summary(None, SkipMessage, false))]
  {
    var x, y := Summary(None, SkipMessage, false), Summary(Some("a"), "done", true);
    MixedExampleSorted();
    assert |SkipMessage| > 4;
    ShownPair(x, y);
    assert |Report(MixedExample())| == 1;
  }

  lemma MixedExampleSorted()
    ensures Sort(MixedExample()) == [Summary(None, SkipMessage, false), Summary(Some("a"), "done", true)]
  {
    var x, y := Summary(None, SkipMessage, false), Summary(Some("a"), "done", true);
    var sorted := [x, y];
    assert Sorted(sorted);
    assert multiset(sorted) == multiset(MixedExample());
    SortedUnique(Sort(MixedExample()), sorted);
  }

  /** A visible entry followed by an invisible one shows only the first. */
  lemma ShownPair(x: Summary, y: Summary)
    requires Visible(x) && !Visible(y)
    ensures Shown([x, y]) == [x]
  {
    assert [x, y][1..] == [y] && [y][1..] == [];
    assert Shown([y]) == Shown([]) == [];
  }
}
