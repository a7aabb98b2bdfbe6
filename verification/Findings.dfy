/** Adversary findings as comment bodies: what the blocker comments say can be read back. */
module Findings {
  import opened Common
  import opened Text

  datatype Severity = High | Med | Low

  datatype Location = Location(path: string, line: nat)

  datatype Finding = Finding(severity: Severity, location: Location, claim: string, evidence: seq<string>)

  function SeverityToken(s: Severity): string {
    match s case High => "high" case Med => "med" case Low => "low"
  }

  function ParseSeverity(s: string): (r: Option<Severity>)
    ensures r.Some? ==> SeverityToken(r.value) == s
  {
    match s
    case "high" => Some(High)
    case "med" => Some(Med)
    case "low" => Some(Low)
    case _ => None
  }

  function ShowLocation(l: Location): string {
    l.path + ":" + Digits(l.line)
  }

  /** The locations `ParseLocation` can produce. */
  predicate IsLocation(l: Location) {
    l.path != "" && l.line < U32
  }

  function ParseLocation(raw: string): (r: Option<Location>)
    ensures r.Some? ==> IsLocation(r.value) && r.value.path <= raw
  {
    match RSplitOnce(raw, ':')
    case None => None
    case Some((path, line)) =>
      if path == "" then None
      else
        match ParseU32(line) case None => None case Some(n) => Some(Location(path, n))
  }

  lemma LocationRoundTrip(l: Location)
    ensures ParseLocation(ShowLocation(l)) == Some(l) <==> IsLocation(l)
  {
    assert forall k :: 0 <= k < |Digits(l.line)| ==> IsDigit(Digits(l.line)[k]);
    RSplitAtLast(l.path, ':', Digits(l.line));
    if l.line < U32 { ParseOfDigits(l.line); }
  }

  // --- rendering ------------------------------------------------------------

  function Dashed(files: seq<string>): (ls: seq<string>)
    ensures |ls| == |files| && forall k :: 0 <= k < |ls| ==> ls[k] == "- " + files[k]
  {
    seq(|files|, k requires 0 <= k < |files| => "- " + files[k])
  }

  function Head(f: Finding): string {
    "[" + SeverityToken(f.severity) + "] " + f.claim
  }

  const LOCATION: string := "location: "
  const EVIDENCE: string := "evidence:"

  /** The lines of the body, before they are joined. */
  function BodyLines(f: Finding): seq<string> {
    [Head(f), LOCATION + ShowLocation(f.location)]
    + if f.evidence == [] then [] else [EVIDENCE] + Dashed(f.evidence)
  }

  function Body(f: Finding): string {
    Unlines(BodyLines(f))
  }

  /** The rendering loop: one evidence file per line. */
  method CommentBody(f: Finding) returns (body: string)
    ensures body == Body(f)
  {
    body := Head(f) + "\n" + (LOCATION + ShowLocation(f.location));
    ghost var done := BodyLines(f)[..2];
    assert body == Unlines(done);
    if f.evidence != [] {
      UnlinesAppend(done, EVIDENCE);
      body := body + "\n" + EVIDENCE;
      done := done + [EVIDENCE];
      for k := 0 to |f.evidence|
        invariant done == BodyLines(f)[..3 + k] && |done| > 0 && body == Unlines(done)
      {
        UnlinesAppend(done, "- " + f.evidence[k]);
        body := body + "\n" + ("- " + f.evidence[k]);
        done := done + ["- " + f.evidence[k]];
      }
    }
    assert done == BodyLines(f);
  }

  lemma {:induction false} UnlinesAppend(ls: seq<string>, l: string)
    requires |ls| > 0
    ensures Unlines(ls + [l]) == Unlines(ls) + "\n" + l
  {
    if |ls| > 1 {
      assert (ls + [l])[1..] == ls[1..] + [l];
      UnlinesAppend(ls[1..], l);
      var a, b, c, d := ls[0], "\n", Unlines(ls[1..]), "\n" + l;
      assert a + b + (c + "\n" + l) == (a + b + c) + "\n" + l;
    } else {
      assert (ls + [l])[1..] == [l];
    }
  }

  // --- reading back ---------------------------------------------------------

  /** The three variables of the reading loop. */
  datatype Read = Read(location: Option<Location>, evidence: seq<string>, inEvidence: bool)

  function ReadLine(r: Read, line: string): Read {
    if LOCATION <= line then r.(location := ParseLocation(line[|LOCATION|..]))
    else if line == EVIDENCE then r.(inEvidence := true)
    else if r.inEvidence && "- " <= line then r.(evidence := r.evidence + [line[2..]])
    else r
  }

  function ReadLines(r: Read, lines: seq<string>): Read
    decreases |lines|
  {
    if lines == [] then r else ReadLines(ReadLine(r, lines[0]), lines[1..])
  }

  function ParseHead(head: string): (r: Option<(Severity, string)>)
    ensures r.Some? ==> head == "[" + SeverityToken(r.value.0) + "] " + r.value.1
  {
    if head == "" || head[0] != '[' then None
    else
      match SplitOnce(head[1..], "] ")
      case None => None
      case Some((token, claim)) =>
        match ParseSeverity(token) case None => None case Some(s) => Some((s, claim))
  }

  const UNREAD := Read(None, [], false)

  function ParseLines(lines: seq<string>): Option<Finding> {
    if lines == [] then None
    else
      match ParseHead(lines[0])
      case None => None
      case Some((severity, claim)) =>
        var r := ReadLines(UNREAD, lines[1..]);
        match r.location case None => None case Some(l) => Some(Finding(severity, l, claim, r.evidence))
  }

  function ParseBody(text: string): Option<Finding> {
    ParseLines(Lines(text))
  }

  /** `parse_finding_from_body`. */
  method ParseFindingFromBody(text: string) returns (f: Option<Finding>)
    ensures f == ParseBody(text)
  {
    var lines := Lines(text);
    if lines == [] { return None; }
    var head := ParseHead(lines[0]);
    if head.None? { return None; }
    var location, evidence, inEvidence := None, [], false;
    for k := 1 to |lines|
      invariant ReadLines(Read(location, evidence, inEvidence), lines[k..]) == ReadLines(UNREAD, lines[1..])
    {
      var line := lines[k];
      assert lines[k..][0] == line && lines[k..][1..] == lines[k + 1..];
      if LOCATION <= line {
        location := ParseLocation(line[|LOCATION|..]);
      } else if line == EVIDENCE {
        inEvidence := true;
      } else if inEvidence && "- " <= line {
        evidence := evidence + [line[2..]];
      }
    }
    if location.None? { return None; }
    return Some(Finding(head.value.0, location.value, head.value.1, evidence));
  }

  // --- the round trip -------------------------------------------------------

  predicate OneLine(s: string) {
    '\n' !in s
  }

  /** No line feed in any of the strings. */
  predicate HasNoLineFeed(f: Finding) {
    && OneLine(f.claim) && OneLine(f.location.path)
    && forall k :: 0 <= k < |f.evidence| ==> OneLine(f.evidence[k])
  }

  /** What the line reader takes away: the carriage return at the end of the claim and of every
      evidence file but the last. */
  function Stripped(f: Finding): Finding {
    f.(claim := StripCr(f.claim), evidence := StripAllButLast(f.evidence))
  }

  lemma HeadRoundTrip(f: Finding)
    ensures ParseHead(Head(f)) == Some((f.severity, f.claim))
  {
    var token, rest := SeverityToken(f.severity), SeverityToken(f.severity) + "] " + f.claim;
    assert Head(f)[1..] == rest;
    SplitAtFirst(token, f.claim);
  }

  lemma {:induction false} SplitAtFirst(left: string, right: string)
    requires ']' !in left
    ensures SplitOnce(left + "] " + right, "] ") == Some((left, right))
  {
    var s := left + "] " + right;
    if left == "" {
      assert s[2..] == right;
    } else {
      assert s[0] == left[0] && left[0] in left;
      assert s[1..] == left[1..] + "] " + right;
      SplitAtFirst(left[1..], right);
      assert [left[0]] + left[1..] == left;
    }
  }

  lemma {:induction false} ReadsEvidence(r: Read, files: seq<string>)
    requires r.inEvidence
    ensures ReadLines(r, Dashed(files)) == r.(evidence := r.evidence + files)
    decreases |files|
  {
    if files != [] {
      var line := Dashed(files)[0];
      assert line[0] == '-' && line[2..] == files[0];
      assert Dashed(files)[1..] == Dashed(files[1..]);
      ReadsEvidence(r.(evidence := r.evidence + [files[0]]), files[1..]);
      assert r.evidence + [files[0]] + files[1..] == r.evidence + files;
    } else {
      assert r.evidence + files == r.evidence;
    }
  }

  lemma ReadsLocation(r: Read, l: Location)
    requires IsLocation(l)
    ensures ReadLine(r, LOCATION + ShowLocation(l)) == r.(location := Some(l))
  {
    LocationRoundTrip(l);
    var line := LOCATION + ShowLocation(l);
    assert line[|LOCATION|..] == ShowLocation(l);
  }

  lemma ReadsBody(f: Finding)
    requires IsLocation(f.location)
    ensures ReadLines(UNREAD, BodyLines(f)[1..]) == Read(Some(f.location), f.evidence, f.evidence != [])
  {
    ReadsLocation(UNREAD, f.location);
    hide LOCATION, ShowLocation, ParseLocation;
    var tail, r := BodyLines(f)[1..], UNREAD.(location := Some(f.location));
    assert tail[0] == LOCATION + ShowLocation(f.location);
    if f.evidence == [] {
      assert tail[1..] == [];
    } else {
      ReadsMarker(r);
      assert tail[1..][0] == EVIDENCE && tail[1..][1..] == Dashed(f.evidence);
      ReadsEvidence(r.(inEvidence := true), f.evidence);
      assert r.evidence + f.evidence == f.evidence;
    }
  }

  lemma ReadsMarker(r: Read)
    ensures ReadLine(r, EVIDENCE) == r.(inEvidence := true)
  {
    assert EVIDENCE[0] != LOCATION[0];
  }

  lemma BodyLinesRoundTrip(f: Finding)
    requires IsLocation(f.location)
    ensures ParseLines(BodyLines(f)) == Some(f)
  {
    HeadRoundTrip(f);
    ReadsBody(f);
    assert BodyLines(f)[0] == Head(f);
    hide Head, ParseHead, ReadLines;
  }

  lemma StripAfter(prefix: string, s: string)
    requires !EndsInCr(prefix)
    ensures StripCr(prefix + s) == prefix + StripCr(s)
  {
    if s == "" {
      assert prefix + s == prefix;
    } else {
      assert (prefix + s)[|prefix + s| - 1] == s[|s| - 1];
    }
  }

  lemma LocationLine(l: Location)
    requires OneLine(l.path)
    ensures OneLine(LOCATION + ShowLocation(l)) && StripCr(LOCATION + ShowLocation(l)) == LOCATION + ShowLocation(l)
  {
    var ds, line := Digits(l.line), LOCATION + ShowLocation(l);
    assert IsDigit(ds[|ds| - 1]) && line[|line| - 1] == ds[|ds| - 1];
    assert forall j :: 0 <= j < |ds| ==> IsDigit(ds[j]);
  }

  lemma HeadLine(f: Finding)
    requires OneLine(f.claim)
    ensures OneLine(Head(f)) && StripCr(Head(f)) == Head(Stripped(f))
  {
    StripAfter("[" + SeverityToken(f.severity) + "] ", f.claim);
  }

  lemma EvidenceLine(file: string)
    requires OneLine(file)
    ensures OneLine("- " + file) && StripCr("- " + file) == "- " + StripCr(file)
  {
    StripAfter("- ", file);
  }

  lemma BodyLineStrips(f: Finding, k: nat)
    requires HasNoLineFeed(f) && k < |BodyLines(f)|
    ensures |BodyLines(Stripped(f))| == |BodyLines(f)| && OneLine(BodyLines(f)[k])
    ensures BodyLines(Stripped(f))[k] == if k < |BodyLines(f)| - 1 then StripCr(BodyLines(f)[k]) else BodyLines(f)[k]
  {
    HeadLine(f);
    LocationLine(f.location);
    var g := Stripped(f);
    hide Head, ShowLocation, LOCATION, StripCr;
    if k < 2 {
      assert BodyLines(f)[k] == [Head(f), LOCATION + ShowLocation(f.location)][k];
      assert BodyLines(g)[k] == [Head(g), LOCATION + ShowLocation(g.location)][k];
    } else if k == 2 {
      MarkerLine();
    } else {
      EvidenceLine(f.evidence[k - 3]);
      assert BodyLines(f)[k] == "- " + f.evidence[k - 3] && BodyLines(g)[k] == "- " + g.evidence[k - 3];
    }
  }

  lemma MarkerLine()
    ensures OneLine(EVIDENCE) && StripCr(EVIDENCE) == EVIDENCE
  {
  }

  /** The lines of the body are the lines of the stripped finding. */
  lemma LinesOfBody(f: Finding)
    requires HasNoLineFeed(f)
    ensures Lines(Body(f)) == BodyLines(Stripped(f))
  {
    hide Lines, Unlines, StripCr, Stripped, BodyLines;
    forall k | 0 <= k < |BodyLines(f)|
      ensures OneLine(BodyLines(f)[k]) && |BodyLines(Stripped(f))| == |BodyLines(f)|
      ensures BodyLines(Stripped(f))[k] == StripAllButLast(BodyLines(f))[k]
    {
      BodyLineStrips(f, k);
    }
    BodyEndsInText(f);
    assert StripAllButLast(BodyLines(f)) == BodyLines(Stripped(f));
    LinesOfUnlines(BodyLines(f));
  }

  lemma BodyEndsInText(f: Finding)
    ensures var ls := BodyLines(f); |ls| > 1 && ls[|ls| - 1] != ""
  {
  }

  lemma {:induction false} ReadStaysOnLines(r: Read, lines: seq<string>)
    requires forall k :: 0 <= k < |lines| ==> OneLine(lines[k])
    requires r.location.Some? ==> OneLine(r.location.value.path) && IsLocation(r.location.value)
    requires forall k :: 0 <= k < |r.evidence| ==> OneLine(r.evidence[k])
    ensures var q := ReadLines(r, lines);
      && (q.location.Some? ==> OneLine(q.location.value.path) && IsLocation(q.location.value))
      && forall k :: 0 <= k < |q.evidence| ==> OneLine(q.evidence[k])
    decreases |lines|
  {
    if lines != [] {
      var line := lines[0];
      if LOCATION <= line {
        var rest := line[|LOCATION|..];
        assert forall c :: c in rest ==> c in line;
        assert ParseLocation(rest).Some? ==> forall c :: c in ParseLocation(rest).value.path ==> c in rest;
      }
      ReadStaysOnLines(ReadLine(r, line), lines[1..]);
    }
  }

  /** Whatever is read back has no line feed in it and a location that parses. */
  lemma ParsedHasNoLineFeed(text: string)
    ensures ParseBody(text).Some? ==> HasNoLineFeed(ParseBody(text).value) && IsLocation(ParseBody(text).value.location)
  {
    var lines := Lines(text);
    if lines != [] && ParseHead(lines[0]).Some? {
      ReadStaysOnLines(UNREAD, lines[1..]);
    }
  }

  lemma StrippedIsSame(f: Finding)
    ensures Stripped(f) == f
      <==> !EndsInCr(f.claim) && forall k :: 0 <= k < |f.evidence| - 1 ==> !EndsInCr(f.evidence[k])
  {
    var g := Stripped(f);
    forall k | 0 <= k < |f.evidence| - 1 && EndsInCr(f.evidence[k]) ensures g.evidence[k] != f.evidence[k] {}
    assert EndsInCr(f.claim) ==> g.claim != f.claim;
  }

  /** Reading back a posted finding, exactly: the finding returns whole iff no string in it holds a
      line feed, its location is a real one, and the line reader has no carriage return to take. */
  lemma BodyRoundTrip(f: Finding)
    ensures ParseBody(Body(f)) == Some(f)
      <==> HasNoLineFeed(f) && IsLocation(f.location) && !EndsInCr(f.claim)
           && forall k :: 0 <= k < |f.evidence| - 1 ==> !EndsInCr(f.evidence[k])
  {
    hide ParseLines, BodyLines, Lines;
    ParsedHasNoLineFeed(Body(f));
    if HasNoLineFeed(f) && IsLocation(f.location) {
      LinesOfBody(f);
      BodyLinesRoundTrip(Stripped(f));
      StrippedIsSame(f);
    }
  }

  /** In particular, every finding without line breaks in its strings survives. */
  lemma BodyKeepsFindings(f: Finding)
    requires IsLocation(f.location) && HasNoLineFeed(f) && '\r' !in f.claim
    requires forall k :: 0 <= k < |f.evidence| ==> '\r' !in f.evidence[k]
    ensures ParseBody(Body(f)) == Some(f)
  {
    BodyRoundTrip(f);
  }
}
