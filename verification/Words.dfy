/** Sanitizing said without its loop: the words of a text, lowered, with one dash between them. */
module Words {
  import opened Text

  /** The runs of letters and digits, lowered. */
  function WordsOf(raw: string): (ws: seq<string>)
    ensures forall k :: 0 <= k < |ws| ==> ws[k] != "" && forall j :: 0 <= j < |ws[k]| ==> ws[k][j] != '-'
    ensures raw != "" && IsAlphanumeric(raw[0]) ==> ws != []
  {
    if raw == "" then []
    else if !IsAlphanumeric(raw[0]) then WordsOf(raw[1..])
    else if |raw| > 1 && IsAlphanumeric(raw[1]) then
      var ws := WordsOf(raw[1..]);
      [[Lower(raw[0])] + ws[0]] + ws[1..]
    else [[Lower(raw[0])]] + WordsOf(raw[1..])
  }

  function Joined(ws: seq<string>): string {
    if ws == [] then "" else if |ws| == 1 then ws[0] else ws[0] + "-" + Joined(ws[1..])
  }

  /** The dash left over behind the last word. */
  function Trail(raw: string): string {
    if WordsOf(raw) != [] && !IsAlphanumeric(raw[|raw| - 1]) then "-" else ""
  }

  lemma {:induction false} NoWords(raw: string)
    requires WordsOf(raw) == []
    ensures forall k :: 0 <= k < |raw| ==> !IsAlphanumeric(raw[k])
  {
    if raw != "" { NoWords(raw[1..]); }
  }

  lemma LongerFirst(c: char, ws: seq<string>)
    requires ws != []
    ensures Joined([[c] + ws[0]] + ws[1..]) == [c] + Joined(ws)
  {
    var longer := [[c] + ws[0]] + ws[1..];
    assert longer[1..] == ws[1..];
    if |ws| > 1 { assert [c] + ws[0] + "-" + Joined(ws[1..]) == [c] + (ws[0] + "-" + Joined(ws[1..])); }
  }

  lemma OneMore(c: char, ws: seq<string>)
    ensures Joined([[c]] + ws) == if ws == [] then [c] else [c] + "-" + Joined(ws)
  {
    assert ([[c]] + ws)[1..] == ws;
  }

  /** Between words, that is where no dash would be written next. */
  lemma {:induction false} FoldSpells(raw: string)
    ensures Fold(raw, true) == Joined(WordsOf(raw)) + Trail(raw)
    decreases |raw|
  {
    if raw != "" {
      var rest := raw[1..];
      if !IsAlphanumeric(raw[0]) {
        FoldSpells(rest);
        if rest != "" { assert rest[|rest| - 1] == raw[|raw| - 1]; }
      } else if rest == "" {
        assert Fold(rest, false) == "";
      } else if IsAlphanumeric(rest[0]) {
        FoldSpells(rest);
        LongerFirst(Lower(raw[0]), WordsOf(rest));
        assert rest[|rest| - 1] == raw[|raw| - 1];
        SameStart(rest);
        assert [Lower(raw[0])] + (Joined(WordsOf(rest)) + Trail(rest)) == [Lower(raw[0])] + Joined(WordsOf(rest)) + Trail(rest);
      } else {
        WordEnds(raw);
      }
    }
  }

  lemma SameStart(raw: string)
    requires raw != "" && IsAlphanumeric(raw[0])
    ensures Fold(raw, false) == Fold(raw, true)
  {
  }

  lemma WordEnds(raw: string)
    requires |raw| > 1 && IsAlphanumeric(raw[0]) && !IsAlphanumeric(raw[1])
    ensures Fold(raw, true) == Joined(WordsOf(raw)) + Trail(raw)
    decreases |raw|, 0
  {
    hide *;
    var c, rest := Lower(raw[0]), raw[2..];
    FoldSpells(rest);
    OneMore(c, WordsOf(rest));
    FirstWord(raw);
    TrailOfRest(raw);
    if WordsOf(rest) != [] {
      assert [c] + ("-" + (Joined(WordsOf(rest)) + Trail(rest))) == [c] + "-" + Joined(WordsOf(rest)) + Trail(rest);
    } else {
      assert Joined(WordsOf(rest)) == "" by { NothingJoined(); }
    }
  }

  lemma NothingJoined()
    ensures Joined([]) == ""
  {
  }

  lemma FirstWord(raw: string)
    requires |raw| > 1 && IsAlphanumeric(raw[0]) && !IsAlphanumeric(raw[1])
    ensures Fold(raw, true) == [Lower(raw[0])] + ("-" + Fold(raw[2..], true))
    ensures WordsOf(raw) == [[Lower(raw[0])]] + WordsOf(raw[2..])
  {
    assert raw[1..][1..] == raw[2..];
  }

  lemma TrailOfRest(raw: string)
    requires |raw| > 1 && IsAlphanumeric(raw[0]) && !IsAlphanumeric(raw[1])
    ensures Trail(raw) == if WordsOf(raw[2..]) == [] then "-" else Trail(raw[2..])
    ensures WordsOf(raw[2..]) == [] ==> Trail(raw[2..]) == ""
  {
    FirstWord(raw);
    hide WordsOf, Fold;
    var rest := raw[2..];
    if WordsOf(rest) == [] { NoWords(rest); } else { SomeText(rest); }
    assert raw[|raw| - 1] == if rest == "" then raw[1] else rest[|rest| - 1];
  }

  lemma SomeText(raw: string)
    requires WordsOf(raw) != []
    ensures raw != ""
  {
  }

  lemma {:induction false} JoinedEnds(ws: seq<string>)
    requires forall k :: 0 <= k < |ws| ==> ws[k] != "" && forall j :: 0 <= j < |ws[k]| ==> ws[k][j] != '-'
    ensures var s := Joined(ws); s != "" ==> s[0] != '-' && s[|s| - 1] != '-'
    ensures ws != [] ==> Joined(ws) != ""
  {
    if |ws| > 1 {
      JoinedEnds(ws[1..]);
      var s, t := Joined(ws), Joined(ws[1..]);
      assert s[0] == ws[0][0] && s[|s| - 1] == t[|t| - 1];
    }
  }

  lemma TrimsTo(lead: string, s: string, trail: string)
    requires lead in {"", "-"} && trail in {"", "-"} && s != "" && s[0] != '-' && s[|s| - 1] != '-'
    ensures TrimDashes(lead + s + trail) == s
  {
    var all, kept := lead + s + trail, s + trail;
    assert kept[0] == s[0] && TrimLeft(kept) == kept;
    if lead == "-" { assert all[1..] == kept; } else { assert all == kept; }
    assert TrimRight(s) == s;
    if trail == "-" { assert kept[..|kept| - 1] == s && kept[|kept| - 1] == '-'; } else { assert kept == s; }
  }

  /** The fold of a text is its words, with at most one dash before and one behind. */
  lemma FoldSpellsWhole(raw: string) returns (lead: string, trail: string)
    ensures lead in {"", "-"} && trail in {"", "-"} && Fold(raw, false) == lead + Joined(WordsOf(raw)) + trail
    ensures WordsOf(raw) == [] ==> trail == ""
  {
    FoldSpells(raw);
    trail := Trail(raw);
    if raw == "" || IsAlphanumeric(raw[0]) {
      lead := "";
      assert Fold(raw, false) == Fold(raw, true);
      assert "" + Joined(WordsOf(raw)) == Joined(WordsOf(raw));
    } else {
      lead := "-";
      assert Fold(raw, false) == "-" + Fold(raw[1..], true) && Fold(raw, true) == Fold(raw[1..], true);
      hide *;
      assert "-" + (Joined(WordsOf(raw)) + trail) == "-" + Joined(WordsOf(raw)) + trail;
    }
  }

  /** A sanitized text is exactly its words, lowered and joined with single dashes: everything between two
      words becomes one dash, and whatever comes before the first or after the last is dropped. */
  lemma SanitizeJoinsWords(raw: string)
    ensures Sanitize(raw) == Joined(WordsOf(raw))
  {
    JoinedEnds(WordsOf(raw));
    hide Fold, WordsOf, TrimDashes;
    var lead, trail := FoldSpellsWhole(raw);
    if WordsOf(raw) == [] {
      NothingJoined();
      assert lead + "" + "" == lead;
      NothingLeft();
    } else {
      TrimsTo(lead, Joined(WordsOf(raw)), trail);
    }
  }

  lemma NothingLeft()
    ensures TrimDashes("") == "" && TrimDashes("-") == ""
  {
  }
}
