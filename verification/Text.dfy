/** Strings as the orchestrator reads and prints them: decimal numbers, splitting, and lines. */
module Text {
  import opened Common

  // --- decimal numbers ------------------------------------------------------

  predicate IsDigit(c: char) {
    '0' <= c <= '9'
  }

  predicate AllDigits(s: string) {
    forall k :: 0 <= k < |s| ==> IsDigit(s[k])
  }

  function Digits(n: nat): (s: string)
    ensures s != "" && AllDigits(s)
  {
    var last := ['0' + (n % 10) as char];
    if n < 10 then last else Digits(n / 10) + last
  }

  function Number(s: string): nat
    requires AllDigits(s)
  {
    if s == "" then 0 else 10 * Number(s[..|s| - 1]) + (s[|s| - 1] - '0') as nat
  }

  lemma {:induction false} NumberOfDigits(n: nat)
    ensures Number(Digits(n)) == n
  {
    if n >= 10 {
      NumberOfDigits(n / 10);
      assert Digits(n)[..|Digits(n)| - 1] == Digits(n / 10);
    }
  }

  const U32: nat := 0x1_0000_0000

  /** `str::parse::<u32>`: one optional `+`, then at least one digit, and no overflow. */
  function ParseU32(s: string): Option<nat> {
    var body := if s != "" && s[0] == '+' then s[1..] else s;
    if body == "" || !AllDigits(body) || Number(body) >= U32 then None else Some(Number(body))
  }

  lemma ParseOfDigits(n: nat)
    requires n < U32
    ensures ParseU32(Digits(n)) == Some(n)
  {
    NumberOfDigits(n);
    assert IsDigit(Digits(n)[0]);
  }

  predicate Spells(s: string, n: nat) {
    s != "" && AllDigits(s) && Number(s) == n
  }

  /** What it accepts: the digits of a number below 2^32, with leading zeros and one plus sign allowed, and
      nothing else. */
  lemma ParseU32Exactly(s: string, n: nat)
    ensures ParseU32(s) == Some(n) <==>
      n < 4294967296 && (Spells(s, n) || (s != "" && s[0] == '+' && Spells(s[1..], n)))
    ensures n < 4294967296 ==> ParseU32(Digits(n)) == ParseU32("+" + Digits(n)) == Some(n)
  {
    hide Number, Digits;
    if n < U32 {
      ParseOfDigits(n);
      NumberOfDigits(n);
      assert ("+" + Digits(n))[1..] == Digits(n);
    }
  }

  // --- splitting ------------------------------------------------------------

  /** `rsplit_once` on one character. */
  function RSplitOnce(s: string, c: char): (r: Option<(string, string)>)
    ensures r.Some? ==> s == r.value.0 + [c] + r.value.1 && c !in r.value.1
    ensures r.None? ==> c !in s
  {
    if s == "" then None
    else if s[|s| - 1] == c then Some((s[..|s| - 1], ""))
    else
      match RSplitOnce(s[..|s| - 1], c)
      case None => None
      case Some((left, right)) => Some((left, right + [s[|s| - 1]]))
  }

  lemma {:induction false} RSplitAtLast(left: string, c: char, right: string)
    requires c !in right
    ensures RSplitOnce(left + [c] + right, c) == Some((left, right))
  {
    var s := left + [c] + right;
    if right == "" {
      assert s[..|s| - 1] == left;
    } else {
      var front, last := right[..|right| - 1], right[|right| - 1];
      assert right == front + [last] && last in right;
      RSplitAtLast(left, c, front);
      assert s[..|s| - 1] == left + [c] + front && s[|s| - 1] == last;
    }
  }

  /** `split_once` on a string. */
  function SplitOnce(s: string, sep: string): (r: Option<(string, string)>)
    ensures r.Some? ==> s == r.value.0 + sep + r.value.1
    decreases |s|
  {
    if sep <= s then Some(("", s[|sep|..]))
    else if s == "" then None
    else
      match SplitOnce(s[1..], sep)
      case None => None
      case Some((left, right)) => Some(([s[0]] + left, right))
  }

  // --- lines ----------------------------------------------------------------

  function IndexOf(s: string, c: char): (k: nat)
    ensures k <= |s| && c !in s[..k]
    ensures k < |s| ==> s[k] == c
  {
    if s == "" || s[0] == c then 0 else 1 + IndexOf(s[1..], c)
  }

  predicate EndsInCr(s: string) {
    s != "" && s[|s| - 1] == '\r'
  }

  function StripCr(s: string): string {
    if EndsInCr(s) then s[..|s| - 1] else s
  }

  /** `str::lines`: a line feed ends a line, a carriage return before it goes with it, and nothing
      after the last line feed is a line only if it is empty. */
  function Lines(s: string): (ls: seq<string>)
    ensures forall k :: 0 <= k < |ls| ==> '\n' !in ls[k]
    decreases |s|
  {
    if s == "" then []
    else
      var k := IndexOf(s, '\n');
      if k == |s| then [s] else [StripCr(s[..k])] + Lines(s[k + 1..])
  }

  function Unlines(ls: seq<string>): string {
    if ls == [] then "" else if |ls| == 1 then ls[0] else ls[0] + "\n" + Unlines(ls[1..])
  }

  lemma IndexOfFirst(left: string, c: char, right: string)
    requires c !in left
    ensures IndexOf(left + [c] + right, c) == |left|
  {
    var s, k := left + [c] + right, IndexOf(left + [c] + right, c);
    assert forall j :: 0 <= j < |left| ==> s[j] == left[j];
    forall j | |left| < j <= |s| ensures c in s[..j] {
      assert s[..j][|left|] == c;
    }
  }

  /** Every line but the last loses the carriage return at its end. */
  function StripAllButLast(ls: seq<string>): (r: seq<string>)
    ensures |r| == |ls|
  {
    seq(|ls|, k requires 0 <= k < |ls| => if k < |ls| - 1 then StripCr(ls[k]) else ls[k])
  }

  lemma LinesOfCons(line: string, rest: string)
    requires '\n' !in line
    ensures Lines(line + ['\n'] + rest) == [StripCr(line)] + Lines(rest)
  {
    var s := line + ['\n'] + rest;
    IndexOfFirst(line, '\n', rest);
    assert s[..|line|] == line && s[|line| + 1..] == rest;
  }

  lemma LinesOfLast(line: string)
    requires '\n' !in line && line != ""
    ensures Lines(line) == [line]
  {
    var k := IndexOf(line, '\n');
  }

  /** What reading lines makes of lines joined with line feeds, when none of them holds a line feed
      and the last is not empty. */
  lemma {:induction false} LinesOfUnlines(ls: seq<string>)
    requires forall k :: 0 <= k < |ls| ==> '\n' !in ls[k]
    requires |ls| > 0 && ls[|ls| - 1] != ""
    ensures Lines(Unlines(ls)) == StripAllButLast(ls)
    decreases |ls|
  {
    hide Lines, StripCr;
    if |ls| > 1 {
      LinesOfCons(ls[0], Unlines(ls[1..]));
      LinesOfUnlines(ls[1..]);
      assert StripAllButLast(ls) == [StripCr(ls[0])] + StripAllButLast(ls[1..]);
    } else {
      LinesOfLast(ls[0]);
      assert StripAllButLast(ls) == [ls[0]];
    }
  }

  // --- folding to a safe alphabet -------------------------------------------

  predicate IsAlphanumeric(c: char) {
    'a' <= c <= 'z' || 'A' <= c <= 'Z' || IsDigit(c)
  }

  function Lower(c: char): char {
    if 'A' <= c <= 'Z' then c - 'A' + 'a' else c
  }

  /** What the folding loop appends for `raw`, given whether it has just appended a dash. */
  function Fold(raw: string, prevDash: bool): string
    decreases |raw|
  {
    if raw == "" then ""
    else if IsAlphanumeric(raw[0]) then [Lower(raw[0])] + Fold(raw[1..], false)
    else if !prevDash then "-" + Fold(raw[1..], true)
    else Fold(raw[1..], true)
  }

  /** What one turn of the folding loop appends and leaves to do. */
  lemma FoldStep(raw: string, k: nat, out: string, prevDash: bool)
    requires k < |raw|
    ensures out + Fold(raw[k..], prevDash) ==
      if IsAlphanumeric(raw[k]) then out + [Lower(raw[k])] + Fold(raw[k + 1..], false)
      else if !prevDash then out + "-" + Fold(raw[k + 1..], true)
      else out + Fold(raw[k + 1..], true)
  {
    assert raw[k..][0] == raw[k] && raw[k..][1..] == raw[k + 1..];
  }

  /** The folding loop with its two variables. */
  method FoldLoop(raw: string) returns (out: string)
    ensures out == Fold(raw, false)
  {
    assert raw[0..] == raw && Fold(raw[|raw|..], true) == Fold(raw[|raw|..], false) == "";
    hide Fold, Lower;
    out := "";
    var prevDash := false;
    for k := 0 to |raw|
      invariant Fold(raw, false) == out + Fold(raw[k..], prevDash)
    {
      FoldStep(raw, k, out, prevDash);
      if IsAlphanumeric(raw[k]) {
        out := out + [Lower(raw[k])];
        prevDash := false;
      } else if !prevDash {
        out := out + "-";
        prevDash := true;
      }
    }
    assert out + "" == out;
  }

  function TrimLeft(s: string): (t: string)
    ensures |t| <= |s| && t == s[|s| - |t|..]
    ensures t != "" ==> t[0] != '-'
  {
    if s != "" && s[0] == '-' then TrimLeft(s[1..]) else s
  }

  function TrimRight(s: string): (t: string)
    ensures t <= s
    ensures t != "" ==> t[|t| - 1] != '-'
  {
    if s != "" && s[|s| - 1] == '-' then TrimRight(s[..|s| - 1]) else s
  }

  /** `trim_matches('-')`. */
  function TrimDashes(s: string): string {
    TrimRight(TrimLeft(s))
  }

  predicate IsSafe(c: char) {
    'a' <= c <= 'z' || IsDigit(c) || c == '-'
  }

  /** Safe characters only, and no dash beside another. */
  predicate Folded(s: string) {
    (forall k :: 0 <= k < |s| ==> IsSafe(s[k]))
    && forall k :: 0 <= k < |s| - 1 ==> !(s[k] == '-' && s[k + 1] == '-')
  }

  predicate IsSlug(s: string) {
    Folded(s) && (s != "" ==> s[0] != '-' && s[|s| - 1] != '-')
  }

  function Sanitize(raw: string): string {
    TrimDashes(Fold(raw, false))
  }

  lemma {:induction false} FoldIsFolded(raw: string, prevDash: bool)
    ensures Folded(Fold(raw, prevDash))
    ensures prevDash && Fold(raw, prevDash) != "" ==> Fold(raw, prevDash)[0] != '-'
    decreases |raw|
  {
    if raw != "" {
      FoldIsFolded(raw[1..], !IsAlphanumeric(raw[0]));
    }
  }

  lemma SanitizeIsSlug(raw: string)
    ensures IsSlug(Sanitize(raw))
  {
    FoldIsFolded(raw, false);
    TrimLeftKeepsFolded(Fold(raw, false));
    TrimRightMakesSlug(TrimLeft(Fold(raw, false)));
  }

  lemma {:induction false} TrimLeftKeepsFolded(s: string)
    requires Folded(s)
    ensures Folded(TrimLeft(s))
  {
    if s != "" && s[0] == '-' { TrimLeftKeepsFolded(s[1..]); }
  }

  lemma {:induction false} TrimRightMakesSlug(s: string)
    requires Folded(s) && (s != "" ==> s[0] != '-')
    ensures IsSlug(TrimRight(s))
    decreases |s|
  {
    if s != "" && s[|s| - 1] == '-' { TrimRightMakesSlug(s[..|s| - 1]); }
  }

  lemma {:induction false} FoldKeepsFolded(s: string, prevDash: bool)
    requires Folded(s) && (prevDash && s != "" ==> s[0] != '-')
    ensures Fold(s, prevDash) == s
    decreases |s|
  {
    if s != "" {
      assert IsSafe(s[0]);
      FoldKeepsFolded(s[1..], s[0] == '-');
    }
  }

  /** Sanitizing is the identity exactly on slugs, hence idempotent. */
  lemma SanitizeFixesSlugs(s: string)
    ensures Sanitize(s) == s <==> IsSlug(s)
  {
    SanitizeIsSlug(s);
    hide Fold, TrimLeft, TrimRight;
    if IsSlug(s) {
      FoldKeepsFolded(s, false);
      TrimKeepsSlug(s);
    }
  }

  lemma TrimKeepsSlug(s: string)
    requires s != "" ==> s[0] != '-' && s[|s| - 1] != '-'
    ensures TrimDashes(s) == s
  {
  }

  /** The letters and digits of a string, lowered. */
  function Letters(s: string): string {
    if s == "" then ""
    else (if IsAlphanumeric(s[0]) then [Lower(s[0])] else "") + Letters(s[1..])
  }

  lemma LettersOfCons(c: char, s: string)
    ensures Letters([c] + s) == (if IsAlphanumeric(c) then [Lower(c)] else "") + Letters(s)
  {
    assert ([c] + s)[1..] == s;
  }

  lemma {:induction false} LettersOfConcat(s: string, t: string)
    ensures Letters(s + t) == Letters(s) + Letters(t)
  {
    if s == "" {
      assert s + t == t;
    } else {
      assert s == [s[0]] + s[1..] && s + t == [s[0]] + (s[1..] + t);
      LettersOfCons(s[0], s[1..]);
      LettersOfCons(s[0], s[1..] + t);
      LettersOfConcat(s[1..], t);
      hide Letters, Lower, IsAlphanumeric;
    }
  }

  lemma {:induction false} FoldKeepsLetters(raw: string, prevDash: bool)
    ensures Letters(Fold(raw, prevDash)) == Letters(raw)
    decreases |raw|
  {
    if raw != "" {
      FoldKeepsLetters(raw[1..], !IsAlphanumeric(raw[0]));
      assert Fold(raw, prevDash) != "" ==>
        Fold(raw, prevDash)[1..] == Fold(raw[1..], !IsAlphanumeric(raw[0])) || (prevDash && !IsAlphanumeric(raw[0]));
    }
  }

  lemma {:induction false} TrimLeftKeepsLetters(s: string)
    ensures Letters(TrimLeft(s)) == Letters(s)
  {
    if s != "" && s[0] == '-' { TrimLeftKeepsLetters(s[1..]); }
  }

  lemma {:induction false} TrimRightKeepsLetters(s: string)
    ensures Letters(TrimRight(s)) == Letters(s)
    decreases |s|
  {
    if s != "" && s[|s| - 1] == '-' {
      TrimRightKeepsLetters(s[..|s| - 1]);
      LettersOfConcat(s[..|s| - 1], "-");
      assert s == s[..|s| - 1] + "-";
    }
  }

  /** Sanitizing loses and reorders no letter or digit. */
  lemma SanitizeKeepsLetters(raw: string)
    ensures Letters(Sanitize(raw)) == Letters(raw)
  {
    FoldKeepsLetters(raw, false);
    TrimLeftKeepsLetters(Fold(raw, false));
    TrimRightKeepsLetters(TrimLeft(Fold(raw, false)));
  }

  lemma SlugHasLetters(s: string)
    requires IsSlug(s)
    ensures s == "" <==> Letters(s) == ""
  {
    if s != "" { assert IsSafe(s[0]); }
  }

  lemma DigitsAreASlug(n: nat)
    ensures IsSlug(Digits(n)) && '-' !in Digits(n)
  {
    assert forall k :: 0 <= k < |Digits(n)| ==> IsDigit(Digits(n)[k]);
  }
}
