/** The translation plan said artifact by artifact and line by line. */
module PlanTable {
  import opened Common
  import opened Text
  import opened Findings
  import opened Artifacts
  import opened History

  /** The last component of the path. */
  ghost predicate IsNamed(path: string, name: string) {
    path == name || exists before: string :: path == before + ['/'] + name
  }

  lemma FileNameIs(path: string, name: string)
    requires '/' !in name
    ensures FileName(path) == name <==> IsNamed(path, name)
  {
    if path == name {
      Unsplit(path, '/');
    } else {
      forall before | path == before + ['/'] + name ensures FileName(path) == name {
        RSplitAtLast(before, '/', name);
      }
    }
  }

  lemma {:induction false} Unsplit(s: string, c: char)
    requires c !in s
    ensures RSplitOnce(s, c).None?
  {
    if s != "" { Unsplit(s[..|s| - 1], c); }
  }

  /** A line file that is taken: small enough, with few enough lines that say something, all of which
      decode. */
  predicate Readable<T>(content: string, blank: string -> bool, decode: string -> Option<T>, bytes: nat, max: nat) {
    var ws := Written(Lines(content), blank);
    |content| <= bytes && |ws| <= max && forall k :: 0 <= k < |ws| ==> decode(ws[k]).Some?
  }

  lemma ParsesExactly<T>(content: string, blank: string -> bool, decode: string -> Option<T>, bytes: nat, max: nat)
    ensures var ws, r := Written(Lines(content), blank), ParseFile(content, blank, decode, bytes, max);
      && (r.Some? <==> Readable(content, blank, decode, bytes, max))
      && (r.Some? ==> |r.value| == |ws| && forall k :: 0 <= k < |ws| ==> decode(ws[k]) == Some(r.value[k]))
  {
    hide Lines;
    ParseIsAllOrNothing(Lines(content), blank, decode, max, 0);
  }

  const RESULT: string := "result.md"
  const FINDINGS: string := "findings.jsonl"
  const FOLLOWUPS: string := "followups.jsonl"

  /** At most 256 findings in one MiB, at most 32 follow-ups in half of one. */
  ghost predicate Parses(reader: Reader, a: Artifact) {
    && (IsNamed(a.path, FINDINGS) ==> Readable(a.bytes, reader.blank, reader.finding, 1048576, 256))
    && (IsNamed(a.path, FOLLOWUPS) ==> Readable(a.bytes, reader.blank, reader.followup, 524288, 32))
  }

  /** What one artifact contributes: a result whole, unless the worker failed; a blocker for each finding
      and a note for each follow-up, numbered by line; nothing for any other file. */
  ghost predicate Contributes(reader: Reader, success: bool, a: Artifact, items: seq<Item>) {
    var ws := Written(Lines(a.bytes), reader.blank);
    if IsNamed(a.path, RESULT) then items == if success then [Item(Key(a.path, a.bytes, -1), Result, a.bytes)] else []
    else if IsNamed(a.path, FINDINGS) then
      |items| == |ws| && forall k :: 0 <= k < |ws| ==>
        reader.finding(ws[k]).Some? && items[k] == Item(Key(a.path, a.bytes, k), Blocker, Body(reader.finding(ws[k]).value))
    else if IsNamed(a.path, FOLLOWUPS) then
      |items| == |ws| && forall k :: 0 <= k < |ws| ==>
        reader.followup(ws[k]).Some? && items[k] == Item(Key(a.path, a.bytes, k), Note, reader.followup(ws[k]).value)
    else items == []
  }

  lemma NamesHaveNoSlash()
    ensures '/' !in RESULT && '/' !in FINDINGS && '/' !in FOLLOWUPS
  {
  }

  lemma OneArtifact(reader: Reader, success: bool, a: Artifact)
    ensures ItemsOf(reader, success, a).Some? <==> Parses(reader, a)
    ensures ItemsOf(reader, success, a).Some? ==> Contributes(reader, success, a, ItemsOf(reader, success, a).value)
  {
    NamesHaveNoSlash();
    FileNameIs(a.path, RESULT);
    FileNameIs(a.path, FINDINGS);
    FileNameIs(a.path, FOLLOWUPS);
    ParsesExactly(a.bytes, reader.blank, reader.finding, 1048576, 256);
    ParsesExactly(a.bytes, reader.blank, reader.followup, 524288, 32);
    hide Lines, Written, Readable, FileName, IsNamed, Body, ParseFile;
  }

  /** Where in the plan the items of the `n`th artifact begin. */
  ghost function Offset(reader: Reader, success: bool, artifacts: seq<Artifact>, n: nat): nat
    requires n <= |artifacts|
  {
    if n == 0 then 0
    else
      var a := artifacts[n - 1];
      Offset(reader, success, artifacts, n - 1)
      + if IsNamed(a.path, RESULT) then (if success then 1 else 0)
        else if IsNamed(a.path, FINDINGS) || IsNamed(a.path, FOLLOWUPS) then |Written(Lines(a.bytes), reader.blank)|
        else 0
  }

  lemma {:induction false} OffsetOfRest(reader: Reader, success: bool, artifacts: seq<Artifact>, n: nat)
    requires 1 <= n <= |artifacts|
    ensures Offset(reader, success, artifacts, n)
      == Offset(reader, success, artifacts, 1) + Offset(reader, success, artifacts[1..], n - 1)
  {
    hide IsNamed, Written, Lines;
    if n > 1 {
      OffsetOfRest(reader, success, artifacts, n - 1);
      assert artifacts[n - 1] == artifacts[1..][n - 2];
    }
  }

  lemma SizeOfOne(reader: Reader, success: bool, artifacts: seq<Artifact>, items: seq<Item>)
    requires artifacts != [] && Contributes(reader, success, artifacts[0], items)
    ensures |items| == Offset(reader, success, artifacts, 1)
  {
    hide IsNamed, Written, Lines, Body;
    assert Offset(reader, success, artifacts, 0) == 0;
  }

  /** The plan, exactly: there is one iff every file of lines is taken, and then it is what the artifacts
      contribute, one after the other. */
  lemma {:induction false} PlanIsExact(reader: Reader, success: bool, artifacts: seq<Artifact>)
    ensures PlanFrom(reader, success, artifacts).Some? <==> forall k :: 0 <= k < |artifacts| ==> Parses(reader, artifacts[k])
    ensures PlanFrom(reader, success, artifacts).Some? ==>
      var plan := PlanFrom(reader, success, artifacts).value;
      |plan| == Offset(reader, success, artifacts, |artifacts|)
    decreases |artifacts|
  {
    hide ItemsOf, Parses, Contributes;
    if artifacts != [] {
      OneArtifact(reader, success, artifacts[0]);
      PlanIsExact(reader, success, artifacts[1..]);
      OffsetOfRest(reader, success, artifacts, |artifacts|);
      var items := ItemsOf(reader, success, artifacts[0]);
      if items.Some? { SizeOfOne(reader, success, artifacts, items.value); }
      assert (forall k :: 0 <= k < |artifacts| ==> Parses(reader, artifacts[k])) <==>
        Parses(reader, artifacts[0]) && forall k :: 0 <= k < |artifacts| - 1 ==> Parses(reader, artifacts[1..][k]) by {
        assert forall k :: 0 < k < |artifacts| ==> artifacts[k] == artifacts[1..][k - 1];
      }
    }
  }

  /** Each artifact's contribution stands at its place. */
  lemma {:induction false} PlanHoldsEach(reader: Reader, success: bool, artifacts: seq<Artifact>, n: nat)
    requires PlanFrom(reader, success, artifacts).Some? && n < |artifacts|
    ensures var plan, from, to := PlanFrom(reader, success, artifacts).value, Offset(reader, success, artifacts, n), Offset(reader, success, artifacts, n + 1);
      from <= to <= |plan| && Contributes(reader, success, artifacts[n], plan[from..to])
    decreases |artifacts|
  {
    hide *;
    OneArtifact(reader, success, artifacts[0]);
    PlanSplits(reader, success, artifacts);
    var items := ItemsOf(reader, success, artifacts[0]).value;
    SizeOfOne(reader, success, artifacts, items);
    NothingBefore(reader, success, artifacts);
    var rest := PlanFrom(reader, success, artifacts[1..]).value;
    if n == 0 {
      assert (items + rest)[0..|items|] == items;
    } else {
      PlanHoldsEach(reader, success, artifacts[1..], n - 1);
      OffsetOfRest(reader, success, artifacts, n);
      OffsetOfRest(reader, success, artifacts, n + 1);
      var from, to := Offset(reader, success, artifacts[1..], n - 1), Offset(reader, success, artifacts[1..], n);
      assert (items + rest)[|items| + from..|items| + to] == rest[from..to];
    }
  }

  lemma NothingBefore(reader: Reader, success: bool, artifacts: seq<Artifact>)
    ensures Offset(reader, success, artifacts, 0) == 0
  {
  }

  lemma PlanSplits(reader: Reader, success: bool, artifacts: seq<Artifact>)
    requires PlanFrom(reader, success, artifacts).Some? && artifacts != []
    ensures ItemsOf(reader, success, artifacts[0]).Some? && PlanFrom(reader, success, artifacts[1..]).Some?
    ensures PlanFrom(reader, success, artifacts).value
      == ItemsOf(reader, success, artifacts[0]).value + PlanFrom(reader, success, artifacts[1..]).value
  {
    hide ItemsOf;
  }

  // --- what the review is read from -----------------------------------------

  /** The first artifact that is a `findings.jsonl`. */
  ghost predicate DeclaredFirst(artifacts: seq<Artifact>, m: nat) {
    m < |artifacts| && IsNamed(artifacts[m].path, FINDINGS) && forall j :: 0 <= j < m ==> !IsNamed(artifacts[j].path, FINDINGS)
  }

  ghost predicate Declares(artifacts: seq<Artifact>) {
    exists j :: 0 <= j < |artifacts| && IsNamed(artifacts[j].path, FINDINGS)
  }

  /** The review is read from the first file declared as the findings, and from no other; without one it
      is missing, and one that is not taken is malformed, neither of which is an empty review. */
  lemma {:induction false} ReviewIsExact(reader: Reader, artifacts: seq<Artifact>, m: nat)
    ensures ReviewFrom(reader, artifacts).Missing? <==> !Declares(artifacts)
    ensures DeclaredFirst(artifacts, m) ==>
      var a := artifacts[m];
      if Readable(a.bytes, reader.blank, reader.finding, 1048576, 256) then
        ReviewFrom(reader, artifacts).Reviewed? && |ReviewFrom(reader, artifacts).findings| == |Written(Lines(a.bytes), reader.blank)|
      else ReviewFrom(reader, artifacts).Malformed?
    decreases |artifacts|
  {
    hide ParseFile, Readable, Lines, Written, FileName, IsNamed;
    if artifacts != [] {
      NamesHaveNoSlash();
      FileNameIs(artifacts[0].path, FINDINGS);
      ParsesExactly(artifacts[0].bytes, reader.blank, reader.finding, 1048576, 256);
      if !IsNamed(artifacts[0].path, FINDINGS) {
        ReviewIsExact(reader, artifacts[1..], if m > 0 then m - 1 else 0);
        assert forall j :: 0 < j < |artifacts| ==> artifacts[j] == artifacts[1..][j - 1];
        assert Declares(artifacts) ==> Declares(artifacts[1..]);
        assert DeclaredFirst(artifacts, m) ==> m > 0 && DeclaredFirst(artifacts[1..], m - 1);
      }
    }
  }

  /** A round is clean only on the word of an adversary that finished and declared findings it did not
      have; one that declared nothing, or what cannot be taken, has not reviewed. */
  lemma VerdictIsExact(reader: Reader, attack: Attack, m: nat)
    ensures !attack.AttackDone? || !Declares(attack.done.artifacts) ==> VerdictOf(reader, attack).RoundPoisoned?
    ensures attack.AttackDone? && DeclaredFirst(attack.done.artifacts, m) ==>
      var a := attack.done.artifacts[m];
      VerdictOf(reader, attack) ==
        if !Readable(a.bytes, reader.blank, reader.finding, 1048576, 256) then RoundPoisoned
        else if Written(Lines(a.bytes), reader.blank) == [] then RoundClean
        else RoundFindings
  {
    hide Readable, Lines, Written, IsNamed, ReviewFrom;
    if attack.AttackDone? { ReviewIsExact(reader, attack.done.artifacts, m); }
  }
}
