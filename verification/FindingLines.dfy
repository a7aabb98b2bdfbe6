/** Which lines of a comment a finding is read from. */
module FindingLines {
  import opened Common
  import opened Text
  import opened Findings

  /** What the last line that gives a location says. */
  function LocationOf(lines: seq<string>): Option<Location> {
    if lines == [] then None
    else
      var last := lines[|lines| - 1];
      if "location: " <= last then ParseLocation(last[10..]) else LocationOf(lines[..|lines| - 1])
  }

  /** The listed files. */
  function Files(lines: seq<string>): seq<string> {
    if lines == [] then [] else (if "- " <= lines[0] then [lines[0][2..]] else []) + Files(lines[1..])
  }

  /** Files are listed after the first line that announces them. */
  function EvidenceOf(lines: seq<string>): seq<string> {
    if lines == [] then [] else if lines[0] == "evidence:" then Files(lines[1..]) else EvidenceOf(lines[1..])
  }

  predicate HasLocation(lines: seq<string>) {
    exists k :: 0 <= k < |lines| && "location: " <= lines[k]
  }

  lemma {:induction false} LocationIsLast(r: Read, lines: seq<string>)
    ensures ReadLines(r, lines).location == if HasLocation(lines) then LocationOf(lines) else r.location
    decreases |lines|
  {
    if lines != [] {
      var n := |lines| - 1;
      LocationIsLast(r, lines[..n]);
      ReadsLast(r, lines);
      assert forall k :: 0 <= k < n ==> lines[..n][k] == lines[k];
    }
  }

  lemma {:induction false} ReadsLast(r: Read, lines: seq<string>)
    requires lines != []
    ensures ReadLines(r, lines) == ReadLine(ReadLines(r, lines[..|lines| - 1]), lines[|lines| - 1])
    decreases |lines|
  {
    hide ReadLine;
    if |lines| > 1 {
      ReadsLast(ReadLine(r, lines[0]), lines[1..]);
      assert lines[1..][..|lines| - 2] == lines[..|lines| - 1][1..];
    }
  }

  lemma {:induction false} EvidenceIsListed(r: Read, lines: seq<string>)
    ensures ReadLines(r, lines).evidence == r.evidence + if r.inEvidence then Files(lines) else EvidenceOf(lines)
    decreases |lines|
  {
    hide ReadLine, LOCATION, EVIDENCE;
    if lines != [] {
      LineIsListed(r, lines[0]);
      EvidenceIsListed(ReadLine(r, lines[0]), lines[1..]);
    }
  }

  /** What one line adds. */
  lemma LineIsListed(r: Read, line: string)
    ensures ReadLine(r, line).inEvidence <==> r.inEvidence || line == "evidence:"
    ensures ReadLine(r, line).evidence == r.evidence + if r.inEvidence && "- " <= line then [line[2..]] else []
    ensures line == "evidence:" ==> !("- " <= line)
  {
    assert line == EVIDENCE ==> line[0] == 'e';
    assert LOCATION <= line ==> line[0] == 'l';
    assert "- " <= line ==> line[0] == '-';
  }

  /** A comment reads as a finding exactly when its first line is the finding's heading, its last location
      line gives the location, and the dashed lines after the first evidence heading are the files; no
      other line matters. */
  lemma ReadsExactly(lines: seq<string>, f: Finding)
    ensures ParseLines(lines) == Some(f) <==>
      lines != [] && lines[0] == Head(f) && LocationOf(lines[1..]) == Some(f.location) && EvidenceOf(lines[1..]) == f.evidence
  {
    hide Head, ParseHead, ReadLines, LocationOf, EvidenceOf, HasLocation;
    if lines != [] {
      LocationIsLast(UNREAD, lines[1..]);
      EvidenceIsListed(UNREAD, lines[1..]);
      NoLocation(lines[1..]);
      HeadIsRead(lines[0], f);
      assert UNREAD.evidence + EvidenceOf(lines[1..]) == EvidenceOf(lines[1..]);
    }
  }

  lemma HeadIsRead(head: string, f: Finding)
    ensures ParseHead(head) == Some((f.severity, f.claim)) <==> head == Head(f)
  {
    HeadRoundTrip(f);
    hide SplitOnce, SeverityToken;
  }

  lemma {:induction false} NoLocation(lines: seq<string>)
    ensures !HasLocation(lines) ==> LocationOf(lines) == None
    decreases |lines|
  {
    if lines != [] {
      var front := lines[..|lines| - 1];
      NoLocation(front);
      assert forall k :: 0 <= k < |front| ==> lines[k] == front[k];
    }
  }
}
