/** `collect_notable` of src/run-python-script.py: the diagnostic-looking lines of command output. */
module Notable {
  import opened PyText

  /** A line is notable when, lower-cased, it contains `error`, `warn` or `fail`. */
  predicate IsNotable(line: string) {
    var lower := Lower(line);
    Contains(lower, "error") || Contains(lower, "warn") || Contains(lower, "fail")
  }

  /** The lines of every output, in argument order. */
  function AllLines(outputs: seq<string>): seq<string>
  {
    if outputs == [] then []
    else AllLines(outputs[..|outputs| - 1]) + SplitLines(outputs[|outputs| - 1])
  }

  /** The notable ones among `lines`, each stripped, in order. */
  function Notables(lines: seq<string>): seq<string>
  {
    if lines == [] then []
    else
      var last := lines[|lines| - 1];
      Notables(lines[..|lines| - 1]) + (if IsNotable(last) then [Strip(last)] else [])
  }

  /** `collect_notable(*outputs)`: each output split into lines, the notable ones kept and stripped. */
  method CollectNotable(outputs: seq<string>) returns (notable: seq<string>)
    ensures notable == Notables(AllLines(outputs))
  {
    notable := [];
    var i := 0;
    while i < |outputs|
      invariant 0 <= i <= |outputs|
      invariant notable == Notables(AllLines(outputs[..i]))
    {
      var lines := SplitLines(outputs[i]);
      ghost var before := notable;
      var j := 0;
      while j < |lines|
        invariant 0 <= j <= |lines|
        invariant notable == before + Notables(lines[..j])
      {
        var line := lines[j];
        if IsNotable(line) {
          notable := notable + [Strip(line)];
        }
        assert lines[..j + 1][..j] == lines[..j];
        j := j + 1;
      }
      assert lines[..j] == lines;
      NotablesConcat(AllLines(outputs[..i]), lines);
      assert outputs[..i + 1][..i] == outputs[..i];
      i := i + 1;
    }
    assert outputs[..i] == outputs;
  }

  /** The notable lines of two runs of text are those of the first, then those of the second. */
  lemma {:induction false} NotablesConcat(a: seq<string>, b: seq<string>)
    ensures Notables(a + b) == Notables(a) + Notables(b)
    decreases |b|
  {
    if b == [] {
      assert a + b == a;
    } else {
      assert (a + b)[..|a + b| - 1] == a + b[..|b| - 1];
      assert (a + b)[|a + b| - 1] == b[|b| - 1];
      NotablesConcat(a, b[..|b| - 1]);
    }
  }

  /** Outputs contribute their lines in argument order. */
  lemma {:induction false} AllLinesConcat(a: seq<string>, b: seq<string>)
    ensures AllLines(a + b) == AllLines(a) + AllLines(b)
    decreases |b|
  {
    if b == [] {
      assert a + b == a;
    } else {
      assert (a + b)[..|a + b| - 1] == a + b[..|b| - 1];
      assert (a + b)[|a + b| - 1] == b[|b| - 1];
      AllLinesConcat(a, b[..|b| - 1]);
    }
  }

  /** An empty output (what `run_cmd` returns for a missing stream) contributes nothing. */
  lemma EmptyOutputContributesNothing(a: seq<string>, b: seq<string>)
    ensures Notables(AllLines(a + [""] + b)) == Notables(AllLines(a + b))
  {
    AllLinesConcat(a + [""], b);
    AllLinesConcat(a, [""]);
    AllLinesConcat(a, b);
    assert [""][..0] == [];
    assert AllLines([""]) == AllLines([]) + SplitLines("") == [];
    assert AllLines(a + [""]) == AllLines(a);
  }

  /** A single line is kept, stripped, exactly when it is notable. */
  lemma NotablesOne(l: string)
    ensures Notables([l]) == if IsNotable(l) then [Strip(l)] else []
  {
    assert [l][..0] == [];
  }

  /** What comes out is exactly the stripped notable lines: every kept line is the stripped form of
      a notable input line, and every notable input line is kept. */
  lemma {:induction false} NotablesMembers(lines: seq<string>, x: string)
    ensures x in Notables(lines) <==> exists l :: l in lines && IsNotable(l) && Strip(l) == x
  {
    if lines != [] {
      var init, last := lines[..|lines| - 1], lines[|lines| - 1];
      assert lines == init + [last];
      NotablesMembers(init, x);
      assert forall l :: l in lines <==> l in init || l == last;
    }
  }

  /** A marker spelled in lower-case letters. */
  predicate LowerWord(k: string) {
    k != [] && forall i :: 0 <= i < |k| ==> 'a' <= k[i] <= 'z'
  }

  /** Stripping never cuts into a marker: the marker sits among non-space characters. */
  lemma OccursInStrip(l: string, k: string, p: int)
    requires LowerWord(k) && OccursAt(Lower(l), k, p)
    ensures OccursAt(Lower(Strip(l)), k, p - StripStart(l))
  {
    MarkerInside(l, k, p);
    SliceOccurs(l, StripStart(l), StripEnd(l), k, p);
  }

  /** A slice that covers an occurrence keeps it, shifted by the slice's start. */
  lemma SliceOccurs(t: string, a: int, b: int, k: string, p: int)
    requires 0 <= a <= p && p + |k| <= b <= |t| && OccursAt(Lower(t), k, p)
    ensures OccursAt(Lower(t[a..b]), k, p - a)
  {
    var s := t[a..b];
    var low, low' := Lower(t), Lower(s);
    forall i | 0 <= i < |k| ensures low'[p - a + i] == k[i] {
      assert s[p - a + i] == t[p + i];
      assert low'[p - a + i] == LowerChar(t[p + i]) == low[p + i];
      assert low[p..p + |k|][i] == low[p + i];
    }
    var sl := low'[p - a..p - a + |k|];
    assert forall i :: 0 <= i < |k| ==> sl[i] == low'[p - a + i];
    assert sl == k;
  }

  /** A marker lies between the first and the last character `strip()` keeps. */
  lemma MarkerInside(l: string, k: string, p: int)
    requires LowerWord(k) && OccursAt(Lower(l), k, p)
    ensures StripStart(l) <= p && p + |k| <= StripEnd(l)
  {
    var low := Lower(l);
    assert low[p] == k[0] && low[p + |k| - 1] == k[|k| - 1] by {
      assert low[p..p + |k|] == k;
      assert low[p..p + |k|][0] == low[p];
      assert low[p..p + |k|][|k| - 1] == low[p + |k| - 1];
    }
    LetterNotSpace(l[p]);
    LetterNotSpace(l[p + |k| - 1]);
  }

  lemma LetterNotSpace(c: char)
    requires 'a' <= LowerChar(c) <= 'z'
    ensures !IsSpace(c)
  {
  }

  lemma ContainsInStrip(l: string, k: string)
    requires LowerWord(k) && Contains(Lower(l), k)
    ensures Contains(Lower(Strip(l)), k)
  {
    var p :| OccursAt(Lower(l), k, p);
    OccursInStrip(l, k, p);
  }

  /** A notable line stays notable once stripped; so a kept line is never empty and never the
      word `done`. */
  lemma StrippedNotable(l: string)
    requires IsNotable(l)
    ensures IsNotable(Strip(l)) && Strip(l) != [] && Strip(l) != "done"
  {
    var low := Lower(l);
    if Contains(low, "error") {
      ContainsInStrip(l, "error");
    } else if Contains(low, "warn") {
      ContainsInStrip(l, "warn");
    } else {
      ContainsInStrip(l, "fail");
    }
    DoneNotNotable();
  }

  /** The word `done` is not notable. */
  lemma DoneNotNotable()
    ensures !IsNotable("done")
  {
    var done := "done";
    assert Lower(done) == done;
    assert 'r' !in done && 'a' !in done;
    MissingLetter(done, "error", 1);
    MissingLetter(done, "warn", 1);
    MissingLetter(done, "fail", 1);
  }

  /** A text without line breaks is one line. */
  lemma OneLine(s: string)
    requires s != [] && NoBreaks(s)
    ensures SplitLines(s) == [s]
  {
  }

  /** Each output given as one line, as in the extractor's documented example. */
  lemma Example()
    ensures Notables(AllLines(["INFO ok", "ERROR disk full", "warn: low memory"]))
         == ["ERROR disk full", "warn: low memory"]
  {
    var o0, o1, o2 := "INFO ok", "ERROR disk full", "warn: low memory";
    PrintableNoBreaks(o0);
    PrintableNoBreaks(o1);
    PrintableNoBreaks(o2);
    InfoNotNotable();
    ErrorNotable();
    WarnNotable();
    ThreeLines(o0, o1, o2);
  }

  lemma ThreeLines(o0: string, o1: string, o2: string)
    requires NoBreaks(o0) && NoBreaks(o1) && NoBreaks(o2)
    requires o0 != [] && o1 != [] && o2 != []
    requires !IsNotable(o0) && IsNotable(o1) && IsNotable(o2) && Strip(o1) == o1 && Strip(o2) == o2
    ensures Notables(AllLines([o0, o1, o2])) == [o1, o2]
  {
    ExampleSplit(o0, o1, o2);
    KeepLastTwo(o0, o1, o2);
  }

  lemma KeepLastTwo(o0: string, o1: string, o2: string)
    requires !IsNotable(o0) && IsNotable(o1) && IsNotable(o2) && Strip(o1) == o1 && Strip(o2) == o2
    ensures Notables([o0, o1, o2]) == [o1, o2]
  {
    var l := [o0, o1, o2];
    assert l[..2] == [o0, o1] && l[2] == o2;
    assert Notables(l) == Notables([o0, o1]) + [o2];
    assert [o0, o1][..1] == [o0];
    assert Notables([o0, o1]) == Notables([o0]) + [o1];
    assert [o0][..0] == [];
    assert Notables([o0]) == [];
  }

  lemma ExampleSplit(o0: string, o1: string, o2: string)
    requires NoBreaks(o0) && NoBreaks(o1) && NoBreaks(o2)
    requires o0 != [] && o1 != [] && o2 != []
    ensures AllLines([o0, o1, o2]) == [o0, o1, o2]
  {
    OneLine(o0);
    OneLine(o1);
    OneLine(o2);
    assert [o0][..0] == [];
    assert AllLines([o0]) == [o0];
    assert [o0, o1][..1] == [o0];
    assert AllLines([o0, o1]) == [o0, o1];
    assert [o0, o1, o2][..2] == [o0, o1];
  }

  /** No character of `s` ends a line. */
  predicate NoBreaks(s: string) {
    forall i :: 0 <= i < |s| ==> !IsLineBreak(s[i])
  }

  /** Printable ASCII text holds no line break. */
  lemma PrintableNoBreaks(s: string)
    requires forall c :: c in s ==> ' ' <= c <= '~'
    ensures NoBreaks(s)
  {
    forall i | 0 <= i < |s| ensures !IsLineBreak(s[i]) {
      assert s[i] in s;
    }
  }

  /** A text lacking one letter of a word does not contain the word. */
  lemma MissingLetter(s: string, k: string, i: nat)
    requires i < |k| && k[i] !in s
    ensures !Contains(s, k)
  {
  }

  /** A text whose first characters lower-case to a word contains the word once lowered. */
  lemma LeadingWord(s: string, k: string)
    requires |k| <= |s| && forall i :: 0 <= i < |k| ==> LowerChar(s[i]) == k[i]
    ensures Contains(Lower(s), k)
  {
    var low := Lower(s);
    assert low[..|k|] == k;
    assert OccursAt(low, k, 0);
  }

  /** A text that neither starts nor ends with white space is its own strip. */
  lemma NoEdgeSpace(s: string)
    requires s != [] && !IsSpace(s[0]) && !IsSpace(s[|s| - 1])
    ensures Strip(s) == s
  {
  }

  lemma InfoNotNotable()
    ensures !IsNotable("INFO ok")
  {
    var info := "info ok";
    assert Lower("INFO ok") == info;
    assert 'a' !in info && 'e' !in info && 'w' !in info;
    MissingLetter(info, "error", 0);
    MissingLetter(info, "warn", 0);
    MissingLetter(info, "fail", 1);
  }

  lemma ErrorNotable()
    ensures IsNotable("ERROR disk full") && Strip("ERROR disk full") == "ERROR disk full"
  {
    var s := "ERROR disk full";
    assert s[0] == 'E' && s[1] == 'R' && s[2] == 'R' && s[3] == 'O' && s[4] == 'R' && s[14] == 'l';
    LeadingWord(s, "error");
    NoEdgeSpace(s);
  }

  lemma WarnNotable()
    ensures IsNotable("warn: low memory") && Strip("warn: low memory") == "warn: low memory"
  {
    var s := "warn: low memory";
    assert s[0] == 'w' && s[1] == 'a' && s[2] == 'r' && s[3] == 'n' && s[15] == 'y';
    LeadingWord(s, "warn");
    NoEdgeSpace(s);
  }
}
