/** A worker's verified artifacts and the comments planned from them. The content hash is taken to
    be injective, so a ledger key holds the content itself. */
module Artifacts {
  import opened Common
  import opened Text
  import opened Findings

  datatype Artifact = Artifact(path: string, bytes: string)

  datatype Done = Done(success: bool, artifacts: seq<Artifact>)

  datatype Kind = Result | Blocker | Note

  /** What a comment is deduplicated on, within one issue. */
  datatype Key = Key(path: string, sha: string, index: int)

  datatype Item = Item(key: Key, kind: Kind, body: string)

  /** Decoding that is not modelled: which lines are blank, one line of `findings.jsonl`, and one
      line of `followups.jsonl` down to the body of its comment. */
  datatype Reader = Reader(blank: string -> bool, finding: string -> Option<Finding>, followup: string -> Option<string>)

  const FINDINGS_MAX: nat := 256
  const FINDINGS_ARTIFACT_MAX_BYTES: nat := 1024 * 1024
  const FOLLOWUP_MAX_PROPOSALS: nat := 32
  const FOLLOWUP_ARTIFACT_MAX_BYTES: nat := 512 * 1024
  const WHOLE_FILE_INDEX := -1

  // --- line-oriented files --------------------------------------------------

  function ParseFrom<T>(lines: seq<string>, blank: string -> bool, decode: string -> Option<T>, max: nat, seen: nat): (r: Option<seq<T>>)
    decreases |lines|
  {
    if lines == [] then Some([])
    else if blank(lines[0]) then ParseFrom(lines[1..], blank, decode, max, seen)
    else if seen >= max || decode(lines[0]).None? then None
    else
      Prepend([decode(lines[0]).value], ParseFrom(lines[1..], blank, decode, max, seen + 1))
  }

  function ParseFile<T>(content: string, blank: string -> bool, decode: string -> Option<T>, bytes: nat, max: nat): Option<seq<T>> {
    if |content| > bytes then None else ParseFrom(Lines(content), blank, decode, max, 0)
  }

  function Prepend<T>(done: seq<T>, rest: Option<seq<T>>): (r: Option<seq<T>>)
    ensures done == [] ==> r == rest
    ensures rest == Some([]) ==> r == Some(done)
  {
    match rest
    case None => None
    case Some(more) =>
      assert [] + more == more && done + [] == done;
      Some(done + more)
  }

  lemma PrependTwice<T>(a: seq<T>, b: seq<T>, rest: Option<seq<T>>)
    ensures Prepend(a, Prepend(b, rest)) == Prepend(a + b, rest)
  {
    if rest.Some? { assert a + (b + rest.value) == a + b + rest.value; }
  }

  /** The line loop of both readers. */
  method ParseArtifact<T>(content: string, blank: string -> bool, decode: string -> Option<T>, bytes: nat, max: nat)
    returns (r: Option<seq<T>>)
    ensures r == ParseFile(content, blank, decode, bytes, max)
  {
    if |content| > bytes { return None; }
    var lines, parsed := Lines(content), [];
    for k := 0 to |lines|
      invariant ParseFrom(lines, blank, decode, max, 0) == Prepend(parsed, ParseFrom(lines[k..], blank, decode, max, |parsed|))
    {
      var line := lines[k];
      assert lines[k..][0] == line && lines[k..][1..] == lines[k + 1..];
      if !blank(line) {
        if |parsed| >= max { return None; }
        var one := decode(line);
        if one.None? { return None; }
        PrependTwice(parsed, [one.value], ParseFrom(lines[k + 1..], blank, decode, max, |parsed| + 1));
        parsed := parsed + [one.value];
      }
    }
    return Some(parsed);
  }

  /** The lines that say something. */
  function Written(lines: seq<string>, blank: string -> bool): seq<string> {
    if lines == [] then [] else (if blank(lines[0]) then [] else [lines[0]]) + Written(lines[1..], blank)
  }

  /** A file is taken whole or not at all: exactly when it is small enough, has few enough written
      lines, and every one of them decodes; the result is then those lines decoded, in order. */
  lemma {:induction false} ParseIsAllOrNothing<T>(lines: seq<string>, blank: string -> bool, decode: string -> Option<T>, max: nat, seen: nat)
    requires seen <= max
    ensures var ws, r := Written(lines, blank), ParseFrom(lines, blank, decode, max, seen);
      && (r.Some? <==> seen + |ws| <= max && forall k :: 0 <= k < |ws| ==> decode(ws[k]).Some?)
      && (r.Some? ==> |r.value| == |ws| && forall k :: 0 <= k < |ws| ==> decode(ws[k]) == Some(r.value[k]))
    decreases |lines|
  {
    if lines != [] {
      var ws := Written(lines, blank);
      if blank(lines[0]) {
        ParseIsAllOrNothing(lines[1..], blank, decode, max, seen);
        assert ws == Written(lines[1..], blank);
      } else {
        assert ws[0] == lines[0] && ws[1..] == Written(lines[1..], blank);
        if seen < max && decode(lines[0]).Some? {
          ParseIsAllOrNothing(lines[1..], blank, decode, max, seen + 1);
          assert forall k :: 1 <= k < |ws| ==> ws[k] == ws[1..][k - 1];
        }
      }
    }
  }

  // --- the plan -------------------------------------------------------------

  function FileName(path: string): string {
    match RSplitOnce(path, '/') case None => path case Some((_, name)) => name
  }

  predicate IsFindings(a: Artifact) {
    FileName(a.path) == "findings.jsonl"
  }

  function ParseFindings(reader: Reader, bytes: string): Option<seq<Finding>> {
    ParseFile(bytes, reader.blank, reader.finding, FINDINGS_ARTIFACT_MAX_BYTES, FINDINGS_MAX)
  }

  function ParseFollowups(reader: Reader, bytes: string): Option<seq<string>> {
    ParseFile(bytes, reader.blank, reader.followup, FOLLOWUP_ARTIFACT_MAX_BYTES, FOLLOWUP_MAX_PROPOSALS)
  }

  function Bodies(fs: seq<Finding>): (bs: seq<string>)
    ensures |bs| == |fs| && forall k :: 0 <= k < |bs| ==> bs[k] == Body(fs[k])
  {
    seq(|fs|, k requires 0 <= k < |fs| => Body(fs[k]))
  }

  function Numbered(a: Artifact, kind: Kind, bodies: seq<string>): (items: seq<Item>)
    ensures |items| == |bodies|
    ensures forall k :: 0 <= k < |items| ==> items[k] == Item(Key(a.path, a.bytes, k), kind, bodies[k])
  {
    seq(|bodies|, k requires 0 <= k < |bodies| => Item(Key(a.path, a.bytes, k), kind, bodies[k]))
  }

  function ItemsOf(reader: Reader, success: bool, a: Artifact): Option<seq<Item>> {
    match FileName(a.path)
    case "result.md" => Some(if success then [Item(Key(a.path, a.bytes, WHOLE_FILE_INDEX), Result, a.bytes)] else [])
    case "findings.jsonl" =>
      (match ParseFindings(reader, a.bytes) case None => None case Some(fs) => Some(Numbered(a, Blocker, Bodies(fs))))
    case "followups.jsonl" =>
      (match ParseFollowups(reader, a.bytes) case None => None case Some(ps) => Some(Numbered(a, Note, ps)))
    case _ => Some([])
  }

  function PlanFrom(reader: Reader, success: bool, artifacts: seq<Artifact>): Option<seq<Item>>
    decreases |artifacts|
  {
    if artifacts == [] then Some([])
    else
      match ItemsOf(reader, success, artifacts[0])
      case None => None
      case Some(items) => Prepend(items, PlanFrom(reader, success, artifacts[1..]))
  }

  function Plan(reader: Reader, done: Done): Option<seq<Item>> {
    PlanFrom(reader, done.success, done.artifacts)
  }

  method TranslationPlan(reader: Reader, done: Done) returns (plan: Option<seq<Item>>)
    ensures plan == Plan(reader, done)
  {
    hide ItemsOf;
    var items := [];
    for k := 0 to |done.artifacts|
      invariant Plan(reader, done) == Prepend(items, PlanFrom(reader, done.success, done.artifacts[k..]))
    {
      assert done.artifacts[k..][0] == done.artifacts[k] && done.artifacts[k..][1..] == done.artifacts[k + 1..];
      var more := ItemsOf(reader, done.success, done.artifacts[k]);
      if more.None? { return None; }
      PrependTwice(items, more.value, PlanFrom(reader, done.success, done.artifacts[k + 1..]));
      items := items + more.value;
    }
    return Some(items);
  }

  /** The strict reader: `findings.jsonl` must be declared; absent is not the same as empty. */
  datatype Review = Missing | Malformed | Reviewed(findings: seq<Finding>)

  function ReviewFrom(reader: Reader, artifacts: seq<Artifact>): Review
    decreases |artifacts|
  {
    if artifacts == [] then Missing
    else if IsFindings(artifacts[0]) then
      match ParseFindings(reader, artifacts[0].bytes) case None => Malformed case Some(fs) => Reviewed(fs)
    else ReviewFrom(reader, artifacts[1..])
  }

  function FromDone(reader: Reader, done: Done): Review {
    ReviewFrom(reader, done.artifacts)
  }

  function Blockers(items: seq<Item>): seq<string> {
    if items == [] then []
    else (if items[0].kind.Blocker? then [items[0].body] else []) + Blockers(items[1..])
  }

  lemma {:induction false} BlockersOfConcat(a: seq<Item>, b: seq<Item>)
    ensures Blockers(a + b) == Blockers(a) + Blockers(b)
  {
    if a == [] {
      assert a + b == b;
    } else {
      assert (a + b)[1..] == a[1..] + b;
      BlockersOfConcat(a[1..], b);
    }
  }

  lemma {:induction false} BlockersOfOneKind(items: seq<Item>, kind: Kind)
    requires forall k :: 0 <= k < |items| ==> items[k].kind == kind
    ensures if kind.Blocker? then |Blockers(items)| == |items| && forall k :: 0 <= k < |items| ==> Blockers(items)[k] == items[k].body
            else Blockers(items) == []
  {
    if items != [] { BlockersOfOneKind(items[1..], kind); }
  }

  lemma BlockersOfArtifact(reader: Reader, success: bool, a: Artifact)
    requires ItemsOf(reader, success, a).Some?
    ensures var items := ItemsOf(reader, success, a).value;
      if IsFindings(a) then ParseFindings(reader, a.bytes).Some? && Blockers(items) == Bodies(ParseFindings(reader, a.bytes).value)
      else Blockers(items) == []
  {
    hide ParseFindings, ParseFollowups;
    var items := ItemsOf(reader, success, a).value;
    match FileName(a.path)
    case "findings.jsonl" => BlockersOfOneKind(items, Blocker);
    case "followups.jsonl" => BlockersOfOneKind(items, Note);
    case _ =>
  }

  /** How many of the declared artifacts are called `findings.jsonl`. */
  function Declared(artifacts: seq<Artifact>): nat {
    if artifacts == [] then 0 else (if IsFindings(artifacts[0]) then 1 else 0) + Declared(artifacts[1..])
  }

  /** The two readers agree. When a plan exists and findings are declared once, the convergence
      reader sees exactly the findings whose bodies the plan posts as blockers, in order; when none
      are declared it reports them missing and no blocker is planned. */
  lemma {:induction false} ReadersAgree(reader: Reader, success: bool, artifacts: seq<Artifact>)
    requires PlanFrom(reader, success, artifacts).Some? && Declared(artifacts) <= 1
    ensures var blockers := Blockers(PlanFrom(reader, success, artifacts).value);
      match ReviewFrom(reader, artifacts)
      case Missing => Declared(artifacts) == 0 && blockers == []
      case Malformed => false
      case Reviewed(fs) => Declared(artifacts) == 1 && blockers == Bodies(fs)
    decreases |artifacts|
  {
    hide ParseFindings, ItemsOf, Body;
    if artifacts != [] {
      var a, rest := artifacts[0], artifacts[1..];
      BlockersOfArtifact(reader, success, a);
      BlockersOfConcat(ItemsOf(reader, success, a).value, PlanFrom(reader, success, rest).value);
      ReadersAgree(reader, success, rest);
    }
  }

  predicate KindMatches(item: Item, success: bool) {
    && (item.kind.Result? <==> FileName(item.key.path) == "result.md")
    && (item.kind.Blocker? <==> FileName(item.key.path) == "findings.jsonl")
    && (item.kind.Note? <==> FileName(item.key.path) == "followups.jsonl")
    && (item.kind.Result? ==> success && item.key.index == WHOLE_FILE_INDEX && item.body == item.key.sha)
    && (!item.kind.Result? ==> item.key.index >= 0)
  }

  lemma ItemKinds(reader: Reader, success: bool, a: Artifact, k: nat)
    requires ItemsOf(reader, success, a).Some? && k < |ItemsOf(reader, success, a).value|
    ensures KindMatches(ItemsOf(reader, success, a).value[k], success)
  {
    hide ParseFindings, ParseFollowups;
    assert ItemsOf(reader, success, a).value[k].key.path == a.path;
    match FileName(a.path)
    case "result.md" =>
    case "findings.jsonl" =>
    case "followups.jsonl" =>
    case _ =>
  }

  /** A file yields one kind of comment only, and a failed worker's plan holds no result. */
  lemma {:induction false} PlanKinds(reader: Reader, success: bool, artifacts: seq<Artifact>, k: nat)
    requires PlanFrom(reader, success, artifacts).Some? && k < |PlanFrom(reader, success, artifacts).value|
    ensures KindMatches(PlanFrom(reader, success, artifacts).value[k], success)
    decreases |artifacts|
  {
    hide ItemsOf, KindMatches;
    var items := ItemsOf(reader, success, artifacts[0]).value;
    if k < |items| {
      ItemKinds(reader, success, artifacts[0], k);
    } else {
      PlanKinds(reader, success, artifacts[1..], k - |items|);
    }
  }
}
