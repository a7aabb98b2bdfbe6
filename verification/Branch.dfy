/** Branch names for landing: a slug of the title, capped at a word boundary, after the issue id. */
module Branch {
  import opened Common
  import opened Text

  /** `cap == None` is the unbounded cap used for the id. */
  function Slug(raw: string, cap: Option<nat>): string {
    Capped(Sanitize(raw), cap)
  }

  function Capped(full: string, cap: Option<nat>): string {
    if cap.None? || |full| <= cap.value then full
    else
      match RSplitOnce(full[..cap.value], '-')
      case None => TrimDashes(full[..cap.value])
      case Some((before, _)) => TrimDashes(before)
  }

  method Slugify(raw: string, cap: Option<nat>) returns (slug: string)
    ensures slug == Slug(raw, cap)
  {
    hide Fold, TrimLeft, TrimRight, RSplitOnce;
    var out := FoldLoop(raw);
    var trimmed := TrimDashes(out);
    if cap.None? || |trimmed| <= cap.value { return trimmed; }
    var head := trimmed[..cap.value];
    var cut := RSplitOnce(head, '-');
    return TrimDashes(if cut.None? then head else cut.value.0);
  }

  lemma PrefixOfSlug(s: string, n: nat)
    requires IsSlug(s) && n <= |s| && (n > 0 ==> s[n - 1] != '-')
    ensures IsSlug(s[..n]) && TrimDashes(s[..n]) == s[..n]
  {
  }

  /** A capped slug is a slug within its cap; it is the whole slug when that fits, and otherwise the
      longest prefix that ends before a dash inside the cap, or the cap itself inside one word. */
  lemma SlugIsCapped(raw: string, max: nat)
    ensures var full, s := Sanitize(raw), Slug(raw, Some(max));
      && IsSlug(s) && |s| <= max && s <= full
      && (|full| <= max ==> s == full)
      && (|full| > max ==>
           if '-' in full[..max] then |s| < max && full[|s|] == '-' && '-' !in full[|s| + 1..max]
           else s == full[..max])
  {
    hide Sanitize;
    SanitizeIsSlug(raw);
    CutAtDash(Sanitize(raw), max);
  }

  lemma CutAtDash(full: string, max: nat)
    requires IsSlug(full)
    ensures var s := Capped(full, Some(max));
      && IsSlug(s) && |s| <= max && s <= full
      && (|full| <= max ==> s == full)
      && (|full| > max ==>
           if '-' in full[..max] then |s| < max && full[|s|] == '-' && '-' !in full[|s| + 1..max]
           else s == full[..max])
  {
    hide RSplitOnce, TrimDashes, IsSlug;
    if |full| > max {
      var head := full[..max];
      match RSplitOnce(head, '-') {
        case None =>
          assert max > 0 ==> full[max - 1] == head[max - 1];
          PrefixOfSlug(full, max);
        case Some((before, after)) =>
          var n := |before|;
          assert head[..n] == before && head[n] == '-' && head[n + 1..] == after;
          assert full[..n] == before && full[n + 1..max] == after;
          NoDashBeforeDash(full, n);
          PrefixOfSlug(full, n);
      }
    }
  }

  /** The cut as its comment describes it: at the last dash at or before the cap. */
  function DocumentedCut(full: string, max: nat): string {
    if |full| <= max then full
    else
      match RSplitOnce(full[..max + 1], '-')
      case None => TrimDashes(full[..max])
      case Some((before, _)) => TrimDashes(before)
  }

  /** The code cuts elsewhere exactly when a dash stands at the cap and another before it. */
  lemma CutDiffersExactly(full: string, max: nat)
    requires IsSlug(full)
    ensures Capped(full, Some(max)) != DocumentedCut(full, max)
      <==> |full| > max && full[max] == '-' && '-' in full[..max]
  {
    hide RSplitOnce, TrimDashes, IsSlug;
    if |full| > max {
      var head, longer := full[..max], full[..max + 1];
      if full[max] == '-' {
        RSplitAtLast(head, '-', "");
        assert longer == head + ['-'] + "";
        NoDashBeforeDash(full, max);
        PrefixOfSlug(full, max);
        CutAtDash(full, max);
      } else {
        var cut := RSplitOnce(head, '-');
        if cut.Some? {
          RSplitAtLast(cut.value.0, '-', cut.value.1 + [full[max]]);
          assert longer == cut.value.0 + ['-'] + (cut.value.1 + [full[max]]);
        } else {
          assert longer == head + [full[max]] && '-' !in longer;
        }
      }
    }
  }

  lemma CutAtCapDiffers()
    ensures IsSlug("a-b-c") && Capped("a-b-c", Some(3)) != DocumentedCut("a-b-c", 3)
  {
    hide Capped, DocumentedCut;
    var full := "a-b-c";
    assert full[..3][1] == '-' && full[3] == '-';
    CutDiffersExactly(full, 3);
  }

  lemma NoDashBeforeDash(s: string, n: nat)
    requires IsSlug(s) && n < |s| && s[n] == '-'
    ensures n > 0 ==> s[n - 1] != '-'
  {
  }

  lemma SlugIsIdempotent(raw: string, max: nat)
    ensures Slug(Slug(raw, Some(max)), Some(max)) == Slug(raw, Some(max))
  {
    SlugIsCapped(raw, max);
    SanitizeFixesSlugs(Slug(raw, Some(max)));
  }

  const TITLE_CAP: nat := 40

  const PREFIX: string := "vdd/"

  function Leaf(id: string, slug: string): string {
    if slug == "" then id else id + ['-'] + slug
  }

  function Name(issue: string, title: string): string {
    var id := Slug(issue, None);
    PREFIX + Leaf(if id == "" then "issue" else id, Slug(title, Some(TITLE_CAP)))
  }

  lemma LeafHoldsId(id: string, slug: string)
    requires '-' !in id
    ensures IndexOf(Leaf(id, slug), '-') == |id| && Leaf(id, slug)[..|id|] == id
  {
    if slug == "" {
      var k := IndexOf(id, '-');
    } else {
      IndexOfFirst(id, '-', slug);
    }
  }

  lemma AppendCancels(p: string, a: string, b: string)
    requires p + a == p + b
    ensures a == b
  {
    assert a == (p + a)[|p|..] && b == (p + b)[|p|..];
  }

  /** Different issues never share a branch, whatever their titles. */
  lemma NamesAreDistinct(m: nat, n: nat, title: string, other: string)
    ensures Name(Digits(m), title) == Name(Digits(n), other) ==> m == n
  {
    NumberOfDigits(m);
    NumberOfDigits(n);
    DigitsAreASlug(m);
    DigitsAreASlug(n);
    SanitizeFixesSlugs(Digits(m));
    SanitizeFixesSlugs(Digits(n));
    hide Digits, Number, Leaf, Sanitize, IndexOf;
    LeafHoldsId(Digits(m), Slug(title, Some(TITLE_CAP)));
    LeafHoldsId(Digits(n), Slug(other, Some(TITLE_CAP)));
    if Name(Digits(m), title) == Name(Digits(n), other) {
      AppendCancels(PREFIX, Leaf(Digits(m), Slug(title, Some(TITLE_CAP))), Leaf(Digits(n), Slug(other, Some(TITLE_CAP))));
    }
  }

  lemma JoinedIsSlug(id: string, slug: string)
    requires IsSlug(id) && IsSlug(slug) && id != "" && slug != ""
    ensures IsSlug(id + ['-'] + slug)
  {
    var s := id + ['-'] + slug;
    forall k | 0 <= k < |s| ensures IsSafe(s[k]) && (k < |s| - 1 ==> !(s[k] == '-' && s[k + 1] == '-')) {
      if k < |id| {
        assert s[k] == id[k] && (k + 1 < |id| ==> s[k + 1] == id[k + 1]);
      } else if k > |id| {
        assert s[k] == slug[k - |id| - 1] && (k + 1 < |s| ==> s[k + 1] == slug[k - |id|]);
      }
    }
    assert s[|s| - 1] == slug[|slug| - 1];
  }

  lemma LettersOfJoined(id: string, slug: string)
    ensures Letters(id + ['-'] + slug) == Letters(id) + Letters(slug)
  {
    hide Letters;
    LettersOfConcat(id + ['-'], slug);
    LettersOfConcat(id, ['-']);
    NoLetters();
  }

  lemma NoLetters()
    ensures Letters("") == "" && Letters(['-']) == ""
  {
  }

  lemma LeafIsSlug(id: string, slug: string)
    requires IsSlug(id) && IsSlug(slug) && id != ""
    ensures IsSlug(Leaf(id, slug)) && Letters(Leaf(id, slug)) == Letters(id) + Letters(slug)
  {
    hide IsSlug, Letters;
    NoLetters();
    if slug != "" {
      JoinedIsSlug(id, slug);
      LettersOfJoined(id, slug);
    }
  }

  /** What follows the prefix is a slug that spells the id, or `issue` if the id has no letter, and then
      the capped title, and no longer than the two and a dash. */
  lemma NameIsSafe(issue: string, title: string)
    ensures var leaf := Name(issue, title)[|PREFIX|..];
      && Name(issue, title) == PREFIX + leaf && IsSlug(leaf)
      && |leaf| <= (if Letters(issue) == "" then 5 else |Sanitize(issue)|) + 41
      && Letters(leaf) == (if Letters(issue) == "" then "issue" else Letters(issue)) + Letters(Slug(title, Some(40)))
  {
    var id, slug := if Sanitize(issue) == "" then "issue" else Sanitize(issue), Slug(title, Some(TITLE_CAP));
    SanitizeIsSlug(issue);
    SanitizeKeepsLetters(issue);
    SlugHasLetters(Sanitize(issue));
    PlaceholderIsSlug();
    SlugIsCapped(title, TITLE_CAP);
    LeafIsSlug(id, slug);
    UncappedSlug(issue);
    hide Sanitize, Letters, IsSlug, Capped;
    assert Name(issue, title) == PREFIX + Leaf(id, slug);
    assert (PREFIX + Leaf(id, slug))[|PREFIX|..] == Leaf(id, slug);
  }

  lemma PlaceholderIsSlug()
    ensures IsSlug("issue") && Letters("issue") == "issue"
  {
    LettersOfSlug("issue");
  }

  lemma {:induction false} LettersOfSlug(s: string)
    requires forall k :: 0 <= k < |s| ==> 'a' <= s[k] <= 'z'
    ensures Letters(s) == s
  {
    if s != "" { LettersOfSlug(s[1..]); }
  }

  lemma UncappedSlug(s: string)
    ensures Slug(s, None) == Sanitize(s)
  {
    hide Sanitize, RSplitOnce, TrimDashes;
  }

  /** No branch is the trunk bookmark. */
  lemma NameIsNotMain(issue: string, title: string)
    ensures Name(issue, title) != "main"
  {
    assert Name(issue, title)[0] == PREFIX[0];
  }
}
