/** The QA gate's output pipeline: bounded capture of both streams, the sandbox handshake, and the
    verdict. Bytes are characters of the same code; decoding them is a parameter. */
module QaCapture {
  import opened Common
  import opened Text

  // --- bounded capture ------------------------------------------------------

  const MAX_CAPTURE_BYTES: nat := 512 * 1024
  const TAIL_LINES: nat := 50

  /** What a reader delivers before end of file: a read of no bytes ends it. */
  function Delivered(chunks: seq<string>): string {
    if chunks == [] || chunks[0] == "" then "" else chunks[0] + Delivered(chunks[1..])
  }

  function Last(s: string, n: nat): string {
    if |s| <= n then s else s[|s| - n..]
  }

  lemma DropDrop(s: string, i: nat, j: nat)
    requires i + j <= |s|
    ensures s[i..][j..] == s[i + j..]
  {
  }

  lemma LastOfSuffix(s: string, i: nat, n: nat)
    requires i <= |s| && (|s| - i >= n || i == 0)
    ensures Last(s[i..], n) == Last(s, n)
  {
    if |s| > n {
      DropDrop(s, i, |s| - i - n);
    } else {
      assert s[i..] == s;
    }
  }

  /** Extending the kept bytes and dropping from the front is keeping the last of everything. */
  lemma KeepLast(all: string, chunk: string, n: nat)
    ensures Last(Last(all, n) + chunk, n) == Last(all + chunk, n)
  {
    if |all| > n {
      var drop := |all| - n;
      assert all[drop..] + chunk == (all + chunk)[drop..];
      LastOfSuffix(all + chunk, drop, n);
    }
  }

  lemma DeliveredStep(all: string, chunks: seq<string>, k: nat)
    requires k < |chunks|
    ensures all + Delivered(chunks[k..]) ==
      if chunks[k] == "" then all else all + chunks[k] + Delivered(chunks[k + 1..])
  {
    assert chunks[k..][0] == chunks[k] && chunks[k..][1..] == chunks[k + 1..];
    assert all + (chunks[k] + Delivered(chunks[k + 1..])) == all + chunks[k] + Delivered(chunks[k + 1..]);
  }

  /** The reading loop keeps exactly the last bytes, however the stream is cut into reads. */
  method DrainBounded(chunks: seq<string>) returns (buf: string)
    ensures buf == Last(Delivered(chunks), MAX_CAPTURE_BYTES)
  {
    assert Delivered(chunks[|chunks|..]) == "";
    hide Delivered;
    buf := "";
    ghost var all := "";
    assert all + Delivered(chunks[0..]) == Delivered(chunks) by { assert chunks[0..] == chunks; }
    for k := 0 to |chunks|
      invariant all + Delivered(chunks[k..]) == Delivered(chunks)
      invariant buf == Last(all, MAX_CAPTURE_BYTES)
    {
      DeliveredStep(all, chunks, k);
      if chunks[k] == "" { return; }
      KeepLast(all, chunks[k], MAX_CAPTURE_BYTES);
      all := all + chunks[k];
      buf := buf + chunks[k];
      if |buf| > MAX_CAPTURE_BYTES {
        buf := buf[|buf| - MAX_CAPTURE_BYTES..];
      }
    }
    assert all + "" == all;
  }

  // --- lines ----------------------------------------------------------------

  predicate IsBreak(c: char) {
    c == '\n' || c == '\r'
  }

  /** Index of the first line break at or after `k`, or the end. */
  function NextBreak(s: string, k: nat): (j: nat)
    requires k <= |s|
    ensures k <= j <= |s| && (j < |s| ==> IsBreak(s[j]))
    ensures forall i :: k <= i < j ==> !IsBreak(s[i])
    decreases |s| - k
  {
    if k == |s| || IsBreak(s[k]) then k else NextBreak(s, k + 1)
  }

  /** Where the next line starts when a break stands at `j`: a carriage return takes a line feed
      right after it along. */
  function PastBreak(s: string, j: nat): (n: nat)
    requires j < |s|
    ensures j < n <= |s|
  {
    if s[j] == '\r' && j + 1 < |s| && s[j + 1] == '\n' then j + 2 else j + 1
  }

  function SplitFrom(s: string, start: nat): seq<string>
    requires start <= |s|
    decreases |s| - start
  {
    if start == |s| then []
    else
      var j := NextBreak(s, start);
      if j == |s| then [s[start..]] else [s[start..j]] + SplitFrom(s, PastBreak(s, j))
  }

  /** No line keeps a line break. */
  lemma {:induction false} SplitHasNoBreaks(s: string, start: nat, k: nat)
    requires start <= |s| && k < |SplitFrom(s, start)|
    ensures '\n' !in SplitFrom(s, start)[k] && '\r' !in SplitFrom(s, start)[k]
    decreases |s| - start
  {
    if k > 0 { SplitHasNoBreaks(s, PastBreak(s, NextBreak(s, start)), k - 1); }
  }

  method SplitLines(raw: string) returns (lines: seq<string>)
    ensures lines == SplitFrom(raw, 0)
  {
    hide SplitFrom, NextBreak;
    lines := [];
    var start, i := 0, 0;
    assert [] + SplitFrom(raw, 0) == SplitFrom(raw, 0);
    while i < |raw|
      invariant start <= i <= |raw|
      invariant forall k :: start <= k < i ==> !IsBreak(raw[k])
      invariant lines + SplitFrom(raw, start) == SplitFrom(raw, 0)
    {
      if IsBreak(raw[i]) {
        FirstBreak(raw, start, i);
        SplitStep(raw, start);
        assert lines + ([raw[start..i]] + SplitFrom(raw, PastBreak(raw, i))) == lines + [raw[start..i]] + SplitFrom(raw, PastBreak(raw, i));
        lines := lines + [raw[start..i]];
        if raw[i] == '\r' && i + 1 < |raw| && raw[i + 1] == '\n' {
          i := i + 2;
        } else {
          i := i + 1;
        }
        start := i;
      } else {
        i := i + 1;
      }
    }
    if start < |raw| {
      FirstBreak(raw, start, |raw|);
      SplitStep(raw, start);
      lines := lines + [raw[start..]];
    } else {
      SplitStop(raw);
      assert lines + [] == lines;
    }
  }

  lemma {:induction false} FirstBreak(s: string, k: nat, j: nat)
    requires k <= j <= |s| && (forall i :: k <= i < j ==> !IsBreak(s[i])) && (j < |s| ==> IsBreak(s[j]))
    ensures NextBreak(s, k) == j
    decreases j - k
  {
    if k < j { FirstBreak(s, k + 1, j); }
  }

  function Concat(ls: seq<string>): string {
    if ls == [] then "" else ls[0] + Concat(ls[1..])
  }

  function Unbroken(s: string): string {
    if s == "" then "" else (if IsBreak(s[0]) then "" else [s[0]]) + Unbroken(s[1..])
  }

  lemma {:induction false} UnbrokenRun(s: string, t: string)
    requires forall k :: 0 <= k < |s| ==> !IsBreak(s[k])
    ensures Unbroken(s + t) == s + Unbroken(t)
  {
    if s == "" {
      assert s + t == t;
    } else {
      assert (s + t)[1..] == s[1..] + t;
      UnbrokenRun(s[1..], t);
      assert s == [s[0]] + s[1..];
    }
  }

  lemma UnbrokenBreak(s: string, j: nat)
    requires j < |s| && IsBreak(s[j])
    ensures Unbroken(s[j..]) == Unbroken(s[PastBreak(s, j)..])
  {
    assert s[j..][1..] == s[j + 1..];
    if PastBreak(s, j) == j + 2 { assert s[j + 1..][1..] == s[j + 2..]; }
  }

  /** Splitting drops the line breaks and nothing else. */
  lemma {:induction false} SplitLosesOnlyBreaks(s: string, start: nat)
    requires start <= |s|
    ensures Concat(SplitFrom(s, start)) == Unbroken(s[start..])
    decreases |s| - start
  {
    hide Unbroken, PastBreak;
    if start < |s| {
      var j := NextBreak(s, start);
      UnbrokenRun(s[start..j], s[j..]);
      assert s[start..] == s[start..j] + s[j..];
      if j < |s| {
        UnbrokenBreak(s, j);
        SplitLosesOnlyBreaks(s, PastBreak(s, j));
      } else {
        NothingUnbroken(s[j..]);
        assert s[start..j] + "" == s[start..];
      }
    } else {
      NothingUnbroken(s[start..]);
    }
  }

  lemma NothingUnbroken(s: string)
    requires s == ""
    ensures Unbroken(s) == ""
  {
  }

  lemma LineWithoutCr(s: string, start: nat, j: nat)
    requires start <= j <= |s| && start < |s| && '\r' !in s && (j < |s| ==> IsBreak(s[j]))
    requires forall i :: start <= i < j ==> !IsBreak(s[i])
    ensures j < |s| ==> PastBreak(s, j) == j + 1 && Lines(s[start..]) == [s[start..j]] + Lines(s[j + 1..])
    ensures j == |s| ==> Lines(s[start..]) == [s[start..]]
  {
    NoBreakIn(s, start, j);
    hide Lines;
    if j < |s| {
      assert s[start..] == s[start..j] + ['\n'] + s[j + 1..];
      LinesOfCons(s[start..j], s[j + 1..]);
    } else {
      assert s[start..j] == s[start..];
      LinesOfLast(s[start..]);
    }
  }

  lemma SplitStep(s: string, start: nat)
    requires start < |s|
    ensures var j := NextBreak(s, start);
      SplitFrom(s, start) == if j == |s| then [s[start..]] else [s[start..j]] + SplitFrom(s, PastBreak(s, j))
  {
  }

  /** Without carriage returns it is the ordinary line reader. */
  lemma {:induction false} SplitWithoutCr(s: string, start: nat)
    requires start <= |s| && '\r' !in s
    ensures SplitFrom(s, start) == Lines(s[start..])
    decreases |s| - start
  {
    hide Lines, SplitFrom, PastBreak, NextBreak;
    if start < |s| {
      var j := NextBreak(s, start);
      SplitStep(s, start);
      LineWithoutCr(s, start, j);
      if j < |s| {
        SplitWithoutCr(s, j + 1);
      }
    } else {
      SplitEnd(s);
    }
  }

  /** A line found in one text is found in another that agrees with it there. */
  lemma SameLine(s: string, t: string, start: nat, off: nat)
    requires start < |s| && start + off < |t|
    requires var j := NextBreak(s, start);
      && j + off < |t| && t[start + off..j + off] == s[start..j] && IsBreak(t[j + off])
      && (j < |s| ==> t[j + off] == s[j])
    ensures var j := NextBreak(s, start);
      SplitFrom(t, start + off) == [s[start..j]] + SplitFrom(t, PastBreak(t, j + off))
  {
    hide SplitFrom, NextBreak, PastBreak;
    var j := NextBreak(s, start);
    forall i | start + off <= i < j + off ensures !IsBreak(t[i]) {
      assert t[i] == t[start + off..j + off][i - (start + off)] == s[i - off];
    }
    FirstBreak(t, start + off, j + off);
    SplitStep(t, start + off);
  }

  /** Text after a finished line is split on its own. */
  lemma {:induction false} SplitAfterFeed(a: string, b: string, start: nat)
    requires start <= |a| && a != "" && a[|a| - 1] == '\n'
    ensures SplitFrom(a + b, start) == SplitFrom(a, start) + SplitFrom(b, 0)
    decreases |a| - start
  {
    hide SplitFrom, NextBreak;
    SplitStop(a);
    if start == |a| {
      SplitShift(a, b, 0);
    } else {
      var j := NextBreak(a, start);
      assert IsBreak(a[|a| - 1]);
      assert (a + b)[start..j] == a[start..j];
      SameLine(a, a + b, start, 0);
      SplitStep(a, start);
      SplitAfterFeed(a, b, PastBreak(a, j));
    }
  }

  lemma SplitTail(a: string, b: string, k: nat)
    requires k < |b| == NextBreak(b, k)
    ensures SplitFrom(a + b, |a| + k) == [b[k..]]
  {
    hide NextBreak;
    FirstBreak(a + b, |a| + k, |a| + |b|);
    assert (a + b)[|a| + k..] == b[k..];
  }

  lemma {:induction false} SplitShift(a: string, b: string, k: nat)
    requires k <= |b|
    ensures SplitFrom(a + b, |a| + k) == SplitFrom(b, k)
    decreases |b| - k
  {
    hide SplitFrom, NextBreak;
    SplitStop(b);
    SplitStop(a + b);
    if k < |b| {
      var j := NextBreak(b, k);
      assert (a + b)[|a| + k..|a| + j] == b[k..j];
      SplitStep(b, k);
      if j < |b| {
        SameLine(b, a + b, k, |a|);
        SplitShift(a, b, PastBreak(b, j));
      } else {
        SplitTail(a, b, k);
      }
    }
  }

  lemma SplitStop(s: string)
    ensures SplitFrom(s, |s|) == []
  {
  }

  /** Finishing an unfinished last line adds no line, even after a lone carriage return. */
  lemma {:induction false} SplitFinished(s: string, start: nat)
    requires start < |s| && s[|s| - 1] != '\n'
    ensures SplitFrom(s + "\n", start) == SplitFrom(s, start)
    decreases |s| - start
  {
    hide SplitFrom, NextBreak;
    SplitStop(s);
    SplitStop(s + "\n");
    var j := NextBreak(s, start);
    FirstBreak(s + "\n", start, j);
    SplitStep(s + "\n", start);
    SplitStep(s, start);
    assert (s + "\n")[start..j] == s[start..j];
    if j < |s| && PastBreak(s, j) < |s| { SplitFinished(s, PastBreak(s, j)); }
  }

  lemma SplitEnd(s: string)
    ensures SplitFrom(s, |s|) == Lines(s[|s|..])
  {
    assert s[|s|..] == "";
  }

  lemma NoBreakIn(s: string, start: nat, j: nat)
    requires start <= j <= |s| && '\r' !in s && forall i :: start <= i < j ==> !IsBreak(s[i])
    ensures '\n' !in s[start..j] && StripCr(s[start..j]) == s[start..j]
  {
    assert forall c :: c in s[start..j] ==> c in s;
  }

  /** The lines kept for a blocker. */
  function TailOf(lines: seq<string>): (t: seq<string>)
    ensures |t| == if |lines| < TAIL_LINES then |lines| else TAIL_LINES
    ensures t == lines[|lines| - |t|..]
  {
    lines[if |lines| < TAIL_LINES then 0 else |lines| - TAIL_LINES..]
  }

  function OutputTail(raw: string): string {
    Unlines(TailOf(SplitFrom(raw, 0)))
  }

  method FromOutput(raw: string) returns (tail: string)
    ensures tail == OutputTail(raw)
  {
    var lines := SplitLines(raw);
    var start := if |lines| < TAIL_LINES then 0 else |lines| - TAIL_LINES;
    tail := Unlines(lines[start..]);
  }

  function LineFeeds(s: string): nat {
    if s == "" then 0 else (if s[0] == '\n' then 1 else 0) + LineFeeds(s[1..])
  }

  /** `line_count`: pieces between line feeds, or none for the empty tail. */
  function LineCount(tail: string): nat {
    if tail == "" then 0 else LineFeeds(tail) + 1
  }

  lemma {:induction false} LineFeedsOfConcat(s: string, t: string)
    ensures LineFeeds(s + t) == LineFeeds(s) + LineFeeds(t)
  {
    if s == "" {
      assert s + t == t;
    } else {
      assert (s + t)[1..] == s[1..] + t;
      LineFeedsOfConcat(s[1..], t);
    }
  }

  lemma {:induction false} NoLineFeeds(s: string)
    requires '\n' !in s
    ensures LineFeeds(s) == 0
  {
    if s != "" { NoLineFeeds(s[1..]); }
  }

  lemma {:induction false} LineFeedsOfUnlines(ls: seq<string>)
    requires ls != [] && forall k :: 0 <= k < |ls| ==> '\n' !in ls[k]
    ensures LineFeeds(Unlines(ls)) == |ls| - 1
  {
    NoLineFeeds(ls[0]);
    if |ls| > 1 {
      LineFeedsOfUnlines(ls[1..]);
      assert LineFeeds("\n") == 1;
      LineFeedsOfConcat(ls[0] + "\n", Unlines(ls[1..]));
      LineFeedsOfConcat(ls[0], "\n");
    }
  }

  /** The reported count is the number of lines kept, at most fifty, except that a lone empty line
      counts as none. */
  lemma LineCountIsExact(raw: string)
    ensures var kept := TailOf(SplitFrom(raw, 0));
      LineCount(OutputTail(raw)) == if kept == [""] then 0 else |kept|
  {
    var lines, kept := SplitFrom(raw, 0), TailOf(SplitFrom(raw, 0));
    if kept != [] {
      forall k | 0 <= k < |kept| ensures '\n' !in kept[k] {
        SplitHasNoBreaks(raw, 0, |lines| - |kept| + k);
      }
      hide SplitFrom;
      LineFeedsOfUnlines(kept);
      if |kept| > 1 { assert Unlines(kept) != ""; }
    }
  }

  // --- the verdict ----------------------------------------------------------

  datatype Exit = Code(code: int) | Signal(signal: int) | TimedOut

  datatype Poison = ScriptNotFound | SandboxUnavailable | ScriptItselfErrored(code: int) | Killed(signal: int) | Hung

  datatype Outcome = Pass | Fail(code: int, tail: string) | Poisoned(poison: Poison)

  /** Stdout then stderr, on separate lines. */
  function Combine(lossy: string -> string, stdout: string, stderr: string): string {
    var out, err := lossy(stdout), lossy(stderr);
    if err == "" then out
    else if out != "" && out[|out| - 1] != '\n' then out + "\n" + err
    else out + err
  }

  /** Joining the two streams runs no two lines together: what is split is the lines of the one, then
      the lines of the other. */
  lemma CombineKeepsLines(lossy: string -> string, stdout: string, stderr: string)
    ensures SplitFrom(Combine(lossy, stdout, stderr), 0) == SplitFrom(lossy(stdout), 0) + SplitFrom(lossy(stderr), 0)
  {
    var out, err := lossy(stdout), lossy(stderr);
    SplitStop("");
    hide SplitFrom;
    if out == "" {
      assert out + err == err;
    } else if out[|out| - 1] == '\n' {
      SplitAfterFeed(out, err, 0);
    } else {
      SplitFinished(out, 0);
      SplitAfterFeed(out + "\n", err, 0);
    }
  }

  function Classify(exit: Exit, lossy: string -> string, stdout: string, stderr: string): Outcome {
    match exit
    case TimedOut => Poisoned(Hung)
    case Signal(signal) => Poisoned(Killed(signal))
    case Code(code) =>
      if code == 0 then Pass
      else if code == 126 || code == 127 then Poisoned(ScriptItselfErrored(code))
      else Fail(code, OutputTail(Combine(lossy, stdout, stderr)))
  }

  const SENTINEL: string := "__VDD_QA_SANDBOX_HANDOFF_OK__"

  /** The stdout after the handshake line, when the first line is the handshake. */
  function StripSentinel(stdout: string, sentinel: string): Option<string> {
    if !(sentinel <= stdout) then None
    else if |stdout| == |sentinel| then Some("")
    else if stdout[|sentinel|] == '\n' then Some(stdout[|sentinel| + 1..])
    else None
  }

  /** A gate run: whether the script and the pinned sandbox are there, and how the child ended. */
  datatype Run = Run(script: bool, sandboxed: bool, pin: bool, exit: Exit, stdout: seq<string>, stderr: seq<string>)

  function Verdict(r: Run, lossy: string -> string): Outcome {
    var stdout, stderr := Last(Delivered(r.stdout), MAX_CAPTURE_BYTES), Last(Delivered(r.stderr), MAX_CAPTURE_BYTES);
    if !r.script then Poisoned(ScriptNotFound)
    else if r.sandboxed && !r.pin then Poisoned(SandboxUnavailable)
    else if r.exit.TimedOut? then Poisoned(Hung)
    else if !r.sandboxed then Classify(r.exit, lossy, stdout, stderr)
    else
      match StripSentinel(stdout, SENTINEL)
      case None => Poisoned(SandboxUnavailable)
      case Some(script) => Classify(r.exit, lossy, script, stderr)
  }

  method RunGate(r: Run, lossy: string -> string) returns (outcome: Outcome)
    ensures outcome == Verdict(r, lossy)
  {
    if !r.script { return Poisoned(ScriptNotFound); }
    if r.sandboxed && !r.pin { return Poisoned(SandboxUnavailable); }
    var stdout := DrainBounded(r.stdout);
    var stderr := DrainBounded(r.stderr);
    if r.exit.TimedOut? { return Poisoned(Hung); }
    if r.sandboxed {
      var script := StripSentinel(stdout, SENTINEL);
      if script.None? { return Poisoned(SandboxUnavailable); }
      stdout := script.value;
    }
    return Classify(r.exit, lossy, stdout, stderr);
  }

  /** The handshake is the whole first line, whether or not anything follows it. */
  lemma HandshakeExactly(stdout: string, sentinel: string, script: string)
    ensures StripSentinel(stdout, sentinel) == Some(script)
      <==> stdout == sentinel + "\n" + script || (stdout == sentinel && script == "")
  {
    var n := |sentinel|;
    if sentinel <= stdout && |stdout| > n && stdout[n] == '\n' {
      assert stdout == stdout[..n] + "\n" + stdout[n + 1..];
    }
    if stdout == sentinel + "\n" + script { assert stdout[n + 1..] == script && stdout[..n] == sentinel; }
  }

  /** The handshake is read back as the script's own output exactly when both fit the capture. */
  lemma HandshakeFits(script: string, sentinel: string, n: nat)
    requires '\n' !in sentinel && sentinel != ""
    ensures StripSentinel(Last(sentinel + "\n" + script, n), sentinel) == Some(script)
      <==> |sentinel| + 1 + |script| <= n
  {
    var all := sentinel + "\n" + script;
    if |all| <= n {
      assert all[|sentinel| + 1..] == script && all[..|sentinel|] == sentinel;
    } else {
      var kept := Last(all, n);
      if n == |sentinel| && script == "" {
        assert kept[n - 1] == all[|all| - 1] && sentinel[n - 1] in sentinel;
      }
    }
  }

  /** The sandbox is transparent: when the handshake line and the script's output fit the capture,
      the sandboxed verdict is the bare one. */
  lemma SandboxIsTransparent(r: Run, script: seq<string>, lossy: string -> string)
    requires r.script && r.sandboxed && r.pin
    requires Delivered(r.stdout) == SENTINEL + "\n" + Delivered(script)
    requires |SENTINEL| + 1 + |Delivered(script)| <= MAX_CAPTURE_BYTES
    ensures Verdict(r, lossy) == Verdict(r.(sandboxed := false, stdout := script), lossy)
  {
    hide Delivered, Last, Classify;
    HandshakeFits(Delivered(script), SENTINEL, MAX_CAPTURE_BYTES);
    assert |Delivered(script)| <= MAX_CAPTURE_BYTES;
    ShortIsWhole(Delivered(script));
  }

  lemma ShortIsWhole(s: string)
    ensures |s| <= MAX_CAPTURE_BYTES ==> Last(s, MAX_CAPTURE_BYTES) == s
  {
  }

  /** What the captured stdout of a sandboxed run must be for the handshake to be seen: all of it fits,
      or so much is lost that the kept bytes are the script's own, and they begin like a handshake
      line. */
  predicate HandshakeShows(script: string) {
    || |SENTINEL| + 1 + |script| <= MAX_CAPTURE_BYTES
    || (|script| >= MAX_CAPTURE_BYTES && StripSentinel(Last(script, MAX_CAPTURE_BYTES), SENTINEL).Some?)
  }

  lemma HandshakeSeen(script: string, sentinel: string, n: nat)
    requires '\n' !in sentinel && sentinel != ""
    ensures StripSentinel(Last(sentinel + "\n" + script, n), sentinel).Some?
      <==> |sentinel| + 1 + |script| <= n || (|script| >= n && StripSentinel(Last(script, n), sentinel).Some?)
  {
    var all := sentinel + "\n" + script;
    var kept := Last(all, n);
    if |all| <= n {
      HandshakeFits(script, sentinel, n);
    } else if |script| >= n {
      assert all[|sentinel| + 1..] == script;
      LastOfSuffix(all, |sentinel| + 1, n);
    } else {
      var feed := |sentinel| - (|all| - n);
      assert kept[feed] == all[|sentinel|] == '\n';
      assert sentinel[feed] in sentinel;
    }
  }

  /** The sandbox is at fault exactly when the handshake does not show, whatever the script did; so a
      passing script passes sandboxed exactly when it does. */
  lemma SandboxIsAtFaultExactly(r: Run, script: string, lossy: string -> string)
    requires r.script && r.sandboxed && r.pin && !r.exit.TimedOut?
    requires Delivered(r.stdout) == SENTINEL + "\n" + script
    ensures Verdict(r, lossy) == Poisoned(SandboxUnavailable) <==> !HandshakeShows(script)
    ensures r.exit == Code(0) ==> (Verdict(r, lossy) == Pass <==> HandshakeShows(script)) && Verdict(r.(sandboxed := false), lossy) == Pass
  {
    hide Delivered, Last, StripSentinel, OutputTail;
    HandshakeSeen(script, SENTINEL, MAX_CAPTURE_BYTES);
  }

  /** A script that prints too much, on which the verdicts differ. */
  lemma LoudScriptIsPoison(lossy: string -> string)
    ensures var script := seq(MAX_CAPTURE_BYTES, _ => 'x');
      var r := Run(true, true, true, Code(0), [SENTINEL + "\n" + script], []);
      Verdict(r, lossy) == Poisoned(SandboxUnavailable) && Verdict(r.(sandboxed := false), lossy) == Pass
  {
    var script := seq(MAX_CAPTURE_BYTES, _ => 'x');
    var out := SENTINEL + "\n" + script;
    assert Last(script, MAX_CAPTURE_BYTES) == script && script[0] == 'x' && SENTINEL[0] == '_';
    assert !(SENTINEL <= script);
    OneDelivery(out);
    SandboxIsAtFaultExactly(Run(true, true, true, Code(0), [out], []), script, lossy);
  }

  lemma OneDelivery(s: string)
    requires s != ""
    ensures Delivered([s]) == s
  {
    assert Delivered([s][1..]) == "";
    assert s + "" == s;
  }

  /** A pass is only ever an exit code of zero, and on a sandboxed run only after the handshake. */
  lemma PassMeansExitZero(r: Run, lossy: string -> string)
    ensures Verdict(r, lossy) == Pass
      <==> r.script && r.exit == Code(0)
           && (!r.sandboxed || (r.pin && StripSentinel(Last(Delivered(r.stdout), MAX_CAPTURE_BYTES), SENTINEL).Some?))
  {
    hide Delivered, Last, StripSentinel;
  }

  lemma ClassifiedFail(exit: Exit, lossy: string -> string, stdout: string, stderr: string)
    requires Classify(exit, lossy, stdout, stderr).Fail?
    ensures var fail := Classify(exit, lossy, stdout, stderr);
      exit == Code(fail.code) && fail.code !in {0, 126, 127} && LineCount(fail.tail) <= TAIL_LINES
  {
    LineCountIsExact(Combine(lossy, stdout, stderr));
  }

  /** A blocker is only ever a real tool's exit code, with at most fifty lines of its output. */
  lemma FailIsAToolsVerdict(r: Run, lossy: string -> string)
    requires Verdict(r, lossy).Fail?
    ensures r.exit == Code(Verdict(r, lossy).code) && r.exit.code !in {0, 126, 127}
    ensures LineCount(Verdict(r, lossy).tail) <= TAIL_LINES
  {
    hide Classify, LineCount, Delivered, Last, StripSentinel;
    var stdout, stderr := Last(Delivered(r.stdout), MAX_CAPTURE_BYTES), Last(Delivered(r.stderr), MAX_CAPTURE_BYTES);
    ClassifiedFail(r.exit, lossy, if r.sandboxed then StripSentinel(stdout, SENTINEL).value else stdout, stderr);
  }

  /** The script ran to an end that speaks for itself, behind its handshake if there is one. */
  predicate SpeaksForItself(r: Run) {
    && r.script && !r.exit.TimedOut?
    && (r.sandboxed ==> r.pin && StripSentinel(Last(Delivered(r.stdout), 524288), SENTINEL).Some?)
  }

  /** What is left of the script's own output: at most half a MiB, without the handshake. */
  function Kept(r: Run): string
    requires SpeaksForItself(r)
  {
    var all := Last(Delivered(r.stdout), 524288);
    if r.sandboxed then StripSentinel(all, SENTINEL).value else all
  }

  /** Every verdict, exactly: who is to blame for a run that says nothing, and what the exit code of one
      that does means. A blocker carries the last fifty lines of what the script wrote, its standard
      output before its standard error. */
  lemma VerdictIsExact(r: Run, lossy: string -> string)
    ensures Verdict(r, lossy) == Poisoned(ScriptNotFound) <==> !r.script
    ensures Verdict(r, lossy) == Poisoned(Hung) <==> r.script && (r.sandboxed ==> r.pin) && r.exit.TimedOut?
    ensures Verdict(r, lossy) == Poisoned(SandboxUnavailable) <==>
      r.script && (r.exit.TimedOut? ==> !r.pin) && r.sandboxed && !SpeaksForItself(r)
    ensures forall s :: Verdict(r, lossy) == Poisoned(Killed(s)) <==> SpeaksForItself(r) && r.exit == Signal(s)
    ensures forall c :: Verdict(r, lossy) == Poisoned(ScriptItselfErrored(c)) <==>
      SpeaksForItself(r) && r.exit == Code(c) && (c == 126 || c == 127)
    ensures Verdict(r, lossy) == Pass <==> SpeaksForItself(r) && r.exit == Code(0)
    ensures SpeaksForItself(r) && r.exit.Code? && r.exit.code !in {0, 126, 127} ==>
      var lines := SplitFrom(lossy(Kept(r)), 0) + SplitFrom(lossy(Last(Delivered(r.stderr), 524288)), 0);
      Verdict(r, lossy) == Fail(r.exit.code, Unlines(if |lines| <= 50 then lines else lines[|lines| - 50..]))
  {
    hide Delivered, Last, StripSentinel, SplitFrom, Unlines, Combine;
    if SpeaksForItself(r) {
      CombineKeepsLines(lossy, Kept(r), Last(Delivered(r.stderr), MAX_CAPTURE_BYTES));
    }
  }
}
