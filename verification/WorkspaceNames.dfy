/** Workspace names, `<phase>-<issue>-r<round>-<uuid>`: what is rendered can be read back, and what
    is read back renders the same. */
module WorkspaceNames {
  import opened Common
  import opened State
  import opened Text

  const PHASES: seq<Phase> := [
    Graphed, Implementing, QaGate, AdversaryReview, Converged, Landing,
    Merged, PrOpen, AwaitingHumanMerge, AwaitingInboundApproval, OrchestratorError]

  function Token(p: Phase): string {
    match p
    case Graphed => "graphed"
    case Implementing => "implementing"
    case QaGate => "qa-gate"
    case AdversaryReview => "adversary-review"
    case Converged => "converged"
    case Landing => "landing"
    case Merged => "merged"
    case PrOpen => "pr-open"
    case AwaitingHumanMerge => "awaiting-human-merge"
    case AwaitingInboundApproval => "awaiting-inbound-approval"
    case OrchestratorError => "orchestrator-error"
  }

  function FromToken(s: string): (p: Option<Phase>)
    ensures p.Some? ==> Token(p.value) == s
  {
    match s
    case "graphed" => Some(Graphed)
    case "implementing" => Some(Implementing)
    case "qa-gate" => Some(QaGate)
    case "adversary-review" => Some(AdversaryReview)
    case "converged" => Some(Converged)
    case "landing" => Some(Landing)
    case "merged" => Some(Merged)
    case "pr-open" => Some(PrOpen)
    case "awaiting-human-merge" => Some(AwaitingHumanMerge)
    case "awaiting-inbound-approval" => Some(AwaitingInboundApproval)
    case "orchestrator-error" => Some(OrchestratorError)
    case _ => None
  }

  lemma TokenRoundTrip(p: Phase)
    ensures FromToken(Token(p)) == Some(p)
  {
  }

  lemma ShortHeadsAreNoTokens()
    ensures FromToken("qa") == None && FromToken("pr") == None && FromToken("adversary") == None
    ensures FromToken("awaiting") == None && FromToken("orchestrator") == None
  {
  }

  lemma LongHeadsAreNoTokens()
    ensures FromToken("awaiting-human") == None && FromToken("awaiting-inbound") == None
  {
  }

  lemma HeadsOfHumanMerge(k: nat)
    requires k < 20 && "awaiting-human-merge"[k] == '-'
    ensures "awaiting-human-merge"[..k] in {"awaiting", "awaiting-human"}
  {
    assert k == 8 || k == 14;
    assert "awaiting-human-merge"[..k] == if k == 8 then "awaiting" else "awaiting-human";
  }

  lemma HeadsOfInboundApproval(k: nat)
    requires k < 25 && "awaiting-inbound-approval"[k] == '-'
    ensures "awaiting-inbound-approval"[..k] in {"awaiting", "awaiting-inbound"}
  {
    assert k == 8 || k == 16;
    assert "awaiting-inbound-approval"[..k] == if k == 8 then "awaiting" else "awaiting-inbound";
  }

  lemma HeadsOfOneDash(k: nat)
    ensures k < 7 && "qa-gate"[k] == '-' ==> "qa-gate"[..k] == "qa"
    ensures k < 7 && "pr-open"[k] == '-' ==> "pr-open"[..k] == "pr"
    ensures k < 16 && "adversary-review"[k] == '-' ==> "adversary-review"[..k] == "adversary"
    ensures k < 18 && "orchestrator-error"[k] == '-' ==> "orchestrator-error"[..k] == "orchestrator"
  {
  }

  /** No phase token is a dash-boundary prefix of another: what the whole scheme rests on. */
  lemma NoTokenStartsAnother(p: Phase, k: nat)
    requires k < |Token(p)| && Token(p)[k] == '-'
    ensures FromToken(Token(p)[..k]) == None
  {
    hide FromToken;
    ShortHeadsAreNoTokens();
    LongHeadsAreNoTokens();
    match p
    case QaGate => HeadsOfOneDash(k);
    case AdversaryReview => HeadsOfOneDash(k);
    case PrOpen => HeadsOfOneDash(k);
    case AwaitingHumanMerge => HeadsOfHumanMerge(k);
    case AwaitingInboundApproval => HeadsOfInboundApproval(k);
    case OrchestratorError => HeadsOfOneDash(k);
    case _ =>
  }

  /** The scan over the dashes of `head`, from the `k`th character on. */
  function MatchFrom(head: string, k: nat): (r: Option<(Phase, string)>)
    requires k <= |head|
    ensures r.Some? ==> head == Token(r.value.0) + "-" + r.value.1
    decreases |head| - k
  {
    if k == |head| then None
    else if head[k] == '-' && FromToken(head[..k]).Some? then Some((FromToken(head[..k]).value, head[k + 1..]))
    else MatchFrom(head, k + 1)
  }

  method MatchPhase(head: string) returns (r: Option<(Phase, string)>)
    ensures r == MatchFrom(head, 0)
  {
    for k := 0 to |head|
      invariant MatchFrom(head, 0) == MatchFrom(head, k)
    {
      if head[k] == '-' {
        var phase := FromToken(head[..k]);
        if phase.Some? { return Some((phase.value, head[k + 1..])); }
      }
    }
    return None;
  }

  /** The scan stops at the boundary the printer wrote, never earlier. */
  lemma {:induction false} MatchFindsBoundary(p: Phase, issue: string, k: nat)
    requires k <= |Token(p)|
    ensures MatchFrom(Token(p) + "-" + issue, k) == Some((p, issue))
    decreases |Token(p)| - k
  {
    var head := Token(p) + "-" + issue;
    hide Token, FromToken;
    if k == |Token(p)| {
      TokenRoundTrip(p);
      assert head[..k] == Token(p) && head[k + 1..] == issue;
    } else {
      assert head[k] == Token(p)[k] && head[..k] == Token(p)[..k];
      if head[k] == '-' { NoTokenStartsAnother(p, k); }
      MatchFindsBoundary(p, issue, k + 1);
    }
  }

  // --- names ----------------------------------------------------------------

  datatype WorkspaceName = WorkspaceName(phase: Phase, issue: string, round: nat, uuid: string)

  const SHORT_UUID_LEN: nat := 8
  const EMPTY_ISSUE: string := "issue"

  predicate IsShortUuid(s: string) {
    |s| == SHORT_UUID_LEN && forall k :: 0 <= k < |s| ==> IsDigit(s[k]) || 'a' <= s[k] <= 'f'
  }

  function IssueSegment(issueId: string): (s: string)
    ensures s != ""
  {
    var safe := Sanitize(issueId);
    if safe == "" then EMPTY_ISSUE else safe
  }

  /** The suffix is minted anew; the round is a `u32`. */
  function Generate(phase: Phase, issueId: string, round: nat, uuid: string): WorkspaceName {
    WorkspaceName(phase, IssueSegment(issueId), round, Sanitize(uuid))
  }

  function Prefix(n: WorkspaceName): string {
    Token(n.phase) + "-" + n.issue + "-" + ("r" + Digits(n.round))
  }

  function AsStr(n: WorkspaceName): string {
    Prefix(n) + "-" + n.uuid
  }

  function ParseRound(token: string): (r: Option<nat>)
    ensures r.Some? ==> r.value < U32 && token == "r" + Digits(r.value)
  {
    if token == "" || token[0] != 'r' then None
    else
      match ParseU32(token[1..])
      case None => None
      case Some(n) => if token == "r" + Digits(n) then Some(n) else None
  }

  function ParsePrefix(head: string): (r: Option<(Phase, string, nat)>)
    ensures r.Some? ==> r.value.1 != "" && r.value.2 < U32
    ensures r.Some? ==> head == Token(r.value.0) + "-" + r.value.1 + "-" + ("r" + Digits(r.value.2))
  {
    match RSplitOnce(head, '-')
    case None => None
    case Some((rest, roundToken)) =>
      match ParseRound(roundToken)
      case None => None
      case Some(round) =>
        match MatchFrom(rest, 0)
        case None => None
        case Some((phase, issue)) => if issue == "" then None else Some((phase, issue, round))
  }

  function Parse(s: string): (r: Option<WorkspaceName>) {
    match RSplitOnce(s, '-')
    case None => None
    case Some((head, uuid)) =>
      if !IsShortUuid(uuid) then None
      else
        match ParsePrefix(head)
        case None => None
        case Some((phase, issue, round)) => Some(WorkspaceName(phase, issue, round, uuid))
  }

  /** The names that rendering and reading agree on. */
  predicate IsName(n: WorkspaceName) {
    n.issue != "" && n.round < U32 && IsShortUuid(n.uuid)
  }

  lemma ParseRoundOfDigits(n: nat)
    requires n < U32
    ensures ParseRound("r" + Digits(n)) == Some(n) && '-' !in "r" + Digits(n)
  {
    ParseOfDigits(n);
    assert ("r" + Digits(n))[1..] == Digits(n);
    assert forall k :: 0 <= k < |Digits(n)| ==> IsDigit(Digits(n)[k]);
  }

  lemma ParseOfPrefix(n: WorkspaceName)
    requires IsName(n)
    ensures ParsePrefix(Prefix(n)) == Some((n.phase, n.issue, n.round))
  {
    hide Token, FromToken, Digits, ParseRound, MatchFrom, RSplitOnce;
    ParseRoundOfDigits(n.round);
    RSplitAtLast(Token(n.phase) + "-" + n.issue, '-', "r" + Digits(n.round));
    MatchFindsBoundary(n.phase, n.issue, 0);
  }

  /** `parse` undoes `as_str` exactly on the well-formed names. */
  lemma ParseRendered(n: WorkspaceName)
    ensures Parse(AsStr(n)) == Some(n) <==> IsName(n)
  {
    hide Prefix, ParsePrefix, RSplitOnce;
    if IsName(n) {
      RSplitAtLast(Prefix(n), '-', n.uuid);
      ParseOfPrefix(n);
    } else {
      ParseIsCanonical(AsStr(n));
    }
  }

  /** What `parse` accepts is exactly what `as_str` prints. */
  lemma ParseIsCanonical(s: string)
    ensures Parse(s).Some? ==> IsName(Parse(s).value) && AsStr(Parse(s).value) == s
  {
    hide ParsePrefix, RSplitOnce;
  }

  /** Every generated name is read back whole, whatever the issue id, even one with no letter. */
  lemma GenerateRoundTrip(phase: Phase, issueId: string, round: nat, uuid: string)
    requires round < U32 && IsShortUuid(uuid)
    ensures Parse(AsStr(Generate(phase, issueId, round, uuid))) == Some(Generate(phase, issueId, round, uuid))
    ensures Generate(phase, issueId, round, uuid).uuid == uuid
  {
    assert IsSlug(uuid);
    SanitizeFixesSlugs(uuid);
    ParseRendered(Generate(phase, issueId, round, uuid));
  }

  /** What `parse` accepts, written out. */
  lemma ParseIsExact(s: string, n: WorkspaceName)
    ensures Parse(s) == Some(n) <==>
      s == Token(n.phase) + "-" + n.issue + "-r" + Digits(n.round) + "-" + n.uuid
      && n.issue != "" && n.round < 4294967296
      && |n.uuid| == 8 && forall k :: 0 <= k < 8 ==> '0' <= n.uuid[k] <= '9' || 'a' <= n.uuid[k] <= 'f'
  {
    ParseRendered(n);
    ParseIsCanonical(s);
    PrefixWrittenOut(n);
    hide Parse, Token, Digits, Prefix;
  }

  lemma PrefixWrittenOut(n: WorkspaceName)
    ensures Prefix(n) == Token(n.phase) + "-" + n.issue + "-r" + Digits(n.round)
  {
    hide Token, Digits;
    var head := Token(n.phase) + "-" + n.issue;
    assert head + "-" + ("r" + Digits(n.round)) == head + "-r" + Digits(n.round);
  }

  /** The issue segment is the sanitized id, or a placeholder for an id without a letter or digit. */
  lemma SegmentIsExact(issueId: string)
    ensures IssueSegment(issueId) == if Letters(issueId) == "" then "issue" else Sanitize(issueId)
  {
    SanitizeIsSlug(issueId);
    SanitizeKeepsLetters(issueId);
    SlugHasLetters(Sanitize(issueId));
    hide Sanitize, Letters;
  }

  // --- safe as a directory --------------------------------------------------

  /** Usable as one directory component as it stands: only `[a-z0-9-]`. */
  predicate IsComponent(s: string) {
    forall k :: 0 <= k < |s| ==> IsSafe(s[k])
  }

  lemma ComponentsOfConcat(a: string, b: string)
    ensures IsComponent(a + b) <==> IsComponent(a) && IsComponent(b)
  {
    var s := a + b;
    assert forall k :: 0 <= k < |a| ==> a[k] == s[k];
    assert forall k :: 0 <= k < |b| ==> b[k] == s[|a| + k];
  }

  lemma TokensAreComponents(p: Phase)
    ensures IsComponent(Token(p))
  {
  }

  /** Whatever is printed and read is safe exactly when its issue segment is. */
  lemma SafeExactly(n: WorkspaceName)
    requires IsName(n)
    ensures IsComponent(AsStr(n)) <==> IsComponent(n.issue)
  {
    TokensAreComponents(n.phase);
    assert IsComponent("-") && IsComponent("r") && IsComponent(Digits(n.round)) && IsComponent(n.uuid);
    hide IsComponent, Token, Digits;
    ComponentsOfConcat(Prefix(n) + "-", n.uuid);
    ComponentsOfConcat(Prefix(n), "-");
    ComponentsOfConcat(Token(n.phase) + "-" + n.issue + "-", "r" + Digits(n.round));
    ComponentsOfConcat("r", Digits(n.round));
    ComponentsOfConcat(Token(n.phase) + "-" + n.issue, "-");
    ComponentsOfConcat(Token(n.phase) + "-", n.issue);
    ComponentsOfConcat(Token(n.phase), "-");
  }

  /** The names that can be generated are exactly those whose issue segment is a slug; all of them are
      safe. */
  lemma GeneratedExactly(n: WorkspaceName)
    requires IsName(n)
    ensures (exists id :: Generate(n.phase, id, n.round, n.uuid) == n) <==> IsSlug(n.issue)
    ensures IsSlug(n.issue) ==> IsComponent(AsStr(n))
  {
    SafeExactly(n);
    assert IsSlug(n.uuid) && (IsSlug(n.issue) ==> IsComponent(n.issue));
    hide IsComponent, Sanitize, IsSlug, AsStr;
    SanitizeFixesSlugs(n.uuid);
    SanitizeFixesSlugs(n.issue);
    EmptyIssueIsSlug();
    if IsSlug(n.issue) { assert Generate(n.phase, n.issue, n.round, n.uuid) == n; }
    if id :| Generate(n.phase, id, n.round, n.uuid) == n { SanitizeIsSlug(id); }
  }

  lemma EmptyIssueIsSlug()
    ensures IsSlug(EMPTY_ISSUE)
  {
  }

  /** `parse` does not check the issue segment: it accepts a name that leads out of its directory. */
  lemma UnsafeNameParses(uuid: string)
    requires IsShortUuid(uuid)
    ensures var n := WorkspaceName(Implementing, "/../up", 0, uuid);
      Parse(AsStr(n)) == Some(n) && !IsComponent(AsStr(n))
  {
    var n := WorkspaceName(Implementing, "/../up", 0, uuid);
    ParseRendered(n);
    SafeExactly(n);
    assert !IsSafe(n.issue[0]);
  }

  // --- whose workspace is it ------------------------------------------------

  function StripUuid(rendered: string): string {
    match RSplitOnce(rendered, '-')
    case None => rendered
    case Some((head, _)) => head
  }

  /** `minted` is the suffix made for the comparison. */
  predicate IssueMatches(n: WorkspaceName, issueId: string, minted: string) {
    StripUuid(AsStr(Generate(n.phase, issueId, n.round, minted))) == StripUuid(AsStr(n))
  }

  lemma StripsToPrefix(n: WorkspaceName)
    requires IsShortUuid(n.uuid)
    ensures StripUuid(AsStr(n)) == Prefix(n)
  {
    hide Prefix, RSplitOnce;
    RSplitAtLast(Prefix(n), '-', n.uuid);
  }

  /** A workspace belongs to an issue iff their sanitized ids agree. */
  lemma MatchIsSegmentEquality(n: WorkspaceName, issueId: string, minted: string)
    requires IsName(n) && IsShortUuid(minted)
    ensures IssueMatches(n, issueId, minted) <==> n.issue == IssueSegment(issueId)
  {
    var g := Generate(n.phase, issueId, n.round, minted);
    GenerateRoundTrip(n.phase, issueId, n.round, minted);
    hide Prefix, ParsePrefix, RSplitOnce, Sanitize, IsShortUuid, StripUuid, AsStr, Parse;
    StripsToPrefix(n);
    StripsToPrefix(g);
    ParseOfPrefix(n);
    ParseOfPrefix(g);
    SamePrefix(n, g);
  }

  lemma SamePrefix(n: WorkspaceName, g: WorkspaceName)
    ensures n.phase == g.phase && n.issue == g.issue && n.round == g.round ==> Prefix(n) == Prefix(g)
  {
  }

  /** For the tracker's decimal ids, matching is equality of the ids. */
  lemma MatchIsIdEquality(m: nat, n: nat, phase: Phase, round: nat, uuid: string, minted: string)
    requires round < U32 && IsShortUuid(uuid) && IsShortUuid(minted)
    ensures IssueMatches(Generate(phase, Digits(m), round, uuid), Digits(n), minted) <==> m == n
  {
    GenerateRoundTrip(phase, Digits(m), round, uuid);
    MatchIsSegmentEquality(Generate(phase, Digits(m), round, uuid), Digits(n), minted);
    NumberOfDigits(m);
    NumberOfDigits(n);
    DigitsAreASlug(m);
    DigitsAreASlug(n);
    SanitizeFixesSlugs(Digits(m));
    SanitizeFixesSlugs(Digits(n));
  }
}
