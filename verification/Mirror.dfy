/** The `events.jsonl` mirror of the event table: appended one line at a time, rebuilt whole at
    every start, and read while any write may have been torn at any byte. A file is a string whose
    characters are its bytes. */
module Mirror {
  import opened Common
  import opened Text

  // --- well-formed text -----------------------------------------------------

  predicate Within(s: string, k: nat, low: char, high: char) {
    k < |s| && low <= s[k] <= high
  }

  predicate Continues(s: string, k: nat) {
    Within(s, k, '\U{80}', '\U{BF}')
  }

  /** The length of the well-formed UTF-8 character at the front (Unicode, table 3-7), 0 if none. */
  function Width(s: string): (n: nat)
    ensures n <= |s|
  {
    if Within(s, 0, '\U{0}', '\U{7F}') then 1
    else if Within(s, 0, '\U{C2}', '\U{DF}') && Continues(s, 1) then 2
    else if Within(s, 0, '\U{E0}', '\U{EF}') && Continues(s, 1) && Continues(s, 2)
      && (s[0] == '\U{E0}' ==> '\U{A0}' <= s[1]) && (s[0] == '\U{ED}' ==> s[1] <= '\U{9F}') then 3
    else if Within(s, 0, '\U{F0}', '\U{F4}') && Continues(s, 1) && Continues(s, 2) && Continues(s, 3)
      && (s[0] == '\U{F0}' ==> '\U{90}' <= s[1]) && (s[0] == '\U{F4}' ==> s[1] <= '\U{8F}') then 4
    else 0
  }

  predicate IsUtf8(s: string)
    decreases |s|
  {
    s == "" || (Width(s) > 0 && IsUtf8(s[Width(s)..]))
  }

  lemma WidthOfPrefix(a: string, b: string)
    requires Width(a) > 0
    ensures Width(a + b) == Width(a)
  {
    assert forall k :: 0 <= k < |a| ==> (a + b)[k] == a[k];
  }

  lemma {:induction false} Utf8Suffix(a: string, b: string)
    requires IsUtf8(a)
    ensures IsUtf8(a + b) <==> IsUtf8(b)
    decreases |a|
  {
    if a == "" {
      assert a + b == b;
    } else {
      hide Width;
      var n := Width(a);
      WidthOfPrefix(a, b);
      assert (a + b)[n..] == a[n..] + b;
      Utf8Suffix(a[n..], b);
    }
  }

  // --- the codec ------------------------------------------------------------

  /** JSON for one event, the test for a blank line, and whether the reader knows the event's kind. */
  datatype Codec<!E> = Codec(encode: E -> string, decode: string -> Option<E>, blank: string -> bool, known: E -> bool)

  /** The events whose kind the reader knows. */
  function Known<E>(c: Codec<E>, events: seq<E>): (k: seq<E>)
    ensures (forall j :: 0 <= j < |events| ==> c.known(events[j])) ==> k == events
  {
    if events == [] then [] else (if c.known(events[0]) then [events[0]] else []) + Known(c, events[1..])
  }

  /** Decoding undoes encoding; a line holds no line break; no proper prefix of a line decodes. */
  ghost predicate Faithful<E(!new)>(c: Codec<E>) {
    forall e: E :: EncodesOneLine(c, e)
  }

  ghost predicate EncodesOneLine<E>(c: Codec<E>, e: E) {
    var line := c.encode(e);
    && c.decode(line) == Some(e)
    && line != "" && '\n' !in line && !EndsInCr(line) && IsUtf8(line) && !c.blank(line)
    && forall n :: 0 <= n < |line| ==> c.decode(line[..n]) == None
  }

  function Line<E>(c: Codec<E>, e: E): string {
    c.encode(e) + ['\n']
  }

  function Body<E>(c: Codec<E>, events: seq<E>): string {
    if events == [] then "" else Line(c, events[0]) + Body(c, events[1..])
  }

  lemma {:induction false} BodyOfConcat<E>(c: Codec<E>, a: seq<E>, b: seq<E>)
    ensures Body(c, a + b) == Body(c, a) + Body(c, b)
  {
    if a == [] {
      assert a + b == b;
    } else {
      assert (a + b)[1..] == a[1..] + b;
      BodyOfConcat(c, a[1..], b);
    }
  }

  // --- reading --------------------------------------------------------------

  datatype Reading<E> = NotText | Corrupt(line: nat) | Rows(events: seq<E>)

  function ReadFrom<E>(c: Codec<E>, lines: seq<string>, k: nat): Reading<E>
    requires k <= |lines|
    decreases |lines| - k
  {
    if k == |lines| then Rows([])
    else if c.blank(lines[k]) then ReadFrom(c, lines, k + 1)
    else
      match c.decode(lines[k])
      case None => if k == |lines| - 1 then ReadFrom(c, lines, k + 1) else Corrupt(k + 1)
      case Some(e) => if c.known(e) then Cons(e, ReadFrom(c, lines, k + 1)) else ReadFrom(c, lines, k + 1)
  }

  function Cons<E>(e: E, r: Reading<E>): Reading<E> {
    if r.Rows? then Rows([e] + r.events) else r
  }

  function Append<E>(done: seq<E>, r: Reading<E>): Reading<E> {
    if r.Rows? then Rows(done + r.events) else r
  }

  function Read<E>(c: Codec<E>, file: string): Reading<E> {
    if IsUtf8(file) then ReadFrom(c, Lines(file), 0) else NotText
  }

  method ReadAll<E>(c: Codec<E>, file: string) returns (r: Reading<E>)
    ensures r == Read(c, file)
  {
    if !IsUtf8(file) { return NotText; }
    var lines, out := Lines(file), [];
    for k := 0 to |lines|
      invariant ReadFrom(c, lines, 0) == Append(out, ReadFrom(c, lines, k))
    {
      if c.blank(lines[k]) { continue; }
      var parsed := c.decode(lines[k]);
      if parsed.None? {
        if k == |lines| - 1 { continue; }
        return Corrupt(k + 1);
      }
      if !c.known(parsed.value) { continue; }
      ghost var rest := ReadFrom(c, lines, k + 1);
      assert rest.Rows? ==> out + ([parsed.value] + rest.events) == out + [parsed.value] + rest.events;
      out := out + [parsed.value];
    }
    return Rows(out);
  }

  /** The last `limit` of the rows read. */
  method Tail<E>(c: Codec<E>, file: string, limit: nat) returns (r: Reading<E>)
    ensures r == match Read(c, file)
      case Rows(all) => Rows(if |all| > limit then all[|all| - limit..] else all)
      case other => other
  {
    r := ReadAll(c, file);
    if r.Rows? && |r.events| > limit {
      r := Rows(r.events[|r.events| - limit..]);
    }
  }

  /** A line that says something and does not decode, with another line after it. */
  predicate IsBad<E>(c: Codec<E>, lines: seq<string>, j: nat) {
    j < |lines| - 1 && !c.blank(lines[j]) && c.decode(lines[j]).None?
  }

  /** The events of a known kind in the lines that decode. */
  function Said<E>(c: Codec<E>, lines: seq<string>): seq<E> {
    if lines == [] then []
    else
      (if !c.blank(lines[0]) && c.decode(lines[0]).Some? && c.known(c.decode(lines[0]).value) then [c.decode(lines[0]).value] else [])
      + Said(c, lines[1..])
  }

  /** Corruption is reported exactly for the first line that does not decode and is not the last; if there
      is none, what the lines say is returned, whole and in order. */
  lemma {:induction false} ReadIsExact<E>(c: Codec<E>, lines: seq<string>, k: nat)
    requires k <= |lines|
    ensures match ReadFrom(c, lines, k)
      case Corrupt(n) => k < n && IsBad(c, lines, n - 1) && forall j :: k <= j < n - 1 ==> !IsBad(c, lines, j)
      case Rows(events) => events == Said(c, lines[k..]) && forall j :: k <= j < |lines| ==> !IsBad(c, lines, j)
      case NotText => false
    decreases |lines| - k
  {
    if k < |lines| {
      ReadIsExact(c, lines, k + 1);
      assert lines[k..][0] == lines[k] && lines[k..][1..] == lines[k + 1..];
    }
  }

  /** The log as the process writes it. */
  class EventLog<E(==)> {
    const codec: Codec<E>
    var table: seq<E>
    var file: string

    /** `rebuild_from`: the whole mirror, rewritten from the table. */
    constructor RebuildFrom(codec: Codec<E>, table: seq<E>)
      ensures this.codec == codec && this.table == table && file == Body(codec, table)
    {
      var body := "";
      for k := 0 to |table|
        invariant body + Body(codec, table[k..]) == Body(codec, table)
      {
        assert table[k..][0] == table[k] && table[k..][1..] == table[k + 1..];
        body := body + codec.encode(table[k]) + ['\n'];
      }
      this.codec, this.table, file := codec, table, body;
    }

    method AppendLine(e: E)
      modifies this`file
      ensures file == old(file) + Line(codec, e)
    {
      file := file + (codec.encode(e) + ['\n']);
    }

    /** The table first, then the mirror. */
    method Emit(e: E)
      modifies this
      ensures table == old(table) + [e] && file == old(file) + Line(codec, e)
    {
      table := table + [e];
      AppendLine(e);
    }
  }

  // --- what a torn file reads as --------------------------------------------

  /** How many events are whole in the first `n` bytes; the last needs no line feed. */
  function Whole<E>(c: Codec<E>, events: seq<E>, n: nat): (k: nat)
    ensures k <= |events|
  {
    if events == [] || n < |c.encode(events[0])| then 0
    else if n == |c.encode(events[0])| then 1
    else 1 + Whole(c, events[1..], n - |c.encode(events[0])| - 1)
  }

  lemma ShiftedRead<E>(c: Codec<E>, first: string, lines: seq<string>, k: nat)
    requires k <= |lines|
    ensures var shifted := ReadFrom(c, [first] + lines, k + 1);
      if ReadFrom(c, lines, k).Corrupt? then shifted.Corrupt? else shifted == ReadFrom(c, lines, k)
    decreases |lines| - k
  {
    if k < |lines| {
      assert ([first] + lines)[k + 1] == lines[k];
      ShiftedRead(c, first, lines, k + 1);
    }
  }

  lemma TornLine<E>(c: Codec<E>, line: string)
    ensures ReadFrom(c, [line], 0)
      == Rows(if !c.blank(line) && c.decode(line).Some? then Known(c, [c.decode(line).value]) else [])
  {
    assert ReadFrom(c, [line], 1) == Rows([]);
  }

  lemma TornFirst<E>(c: Codec<E>, e: E, n: nat)
    requires EncodesOneLine(c, e) && n <= |c.encode(e)|
    ensures ReadFrom(c, Lines(c.encode(e)[..n]), 0) == Rows(if n == |c.encode(e)| then Known(c, [e]) else [])
  {
    var line := c.encode(e);
    hide Lines, ReadFrom;
    if n > 0 {
      LinesOfLast(line[..n]);
      TornLine(c, line[..n]);
      if n == |line| { assert line[..n] == line; }
    } else {
      NothingRead(c);
    }
  }

  lemma NothingRead<E>(c: Codec<E>)
    ensures ReadFrom(c, Lines(""), 0) == Rows([])
    ensures Body(c, []) == "" && Known(c, []) == [] && Whole(c, [], 0) == 0
  {
  }

  lemma LineOf<E>(c: Codec<E>, e: E)
    requires EncodesOneLine(c, e)
    ensures var line := c.encode(e);
      c.decode(line) == Some(e) && !c.blank(line) && '\n' !in line && !EndsInCr(line)
  {
  }

  lemma FirstRead<E>(c: Codec<E>, line: string, lines: seq<string>)
    requires c.decode(line).Some? && !c.blank(line)
    ensures var e, r := c.decode(line).value, ReadFrom(c, [line] + lines, 1);
      ReadFrom(c, [line] + lines, 0) == if c.known(e) then Cons(e, r) else r
  {
  }

  lemma ReadPastFirst<E>(c: Codec<E>, e: E, rest: string)
    requires EncodesOneLine(c, e)
    ensures var r := ReadFrom(c, Lines(rest), 0);
      !r.Corrupt? ==> ReadFrom(c, Lines(c.encode(e) + ['\n'] + rest), 0) == if c.known(e) then Cons(e, r) else r
  {
    hide Lines, EncodesOneLine, ReadFrom, EndsInCr;
    var line := c.encode(e);
    LineOf(c, e);
    LinesOfCons(line, rest);
    ShiftedRead(c, line, Lines(rest), 0);
    FirstRead(c, line, Lines(rest));
  }

  /** Cutting the mirror at any byte leaves the events that are whole before the cut; nothing is
      ever reported corrupt. */
  lemma {:induction false} TornRead<E(!new)>(c: Codec<E>, events: seq<E>, n: nat)
    requires Faithful(c) && n <= |Body(c, events)|
    ensures ReadFrom(c, Lines(Body(c, events)[..n]), 0) == Rows(Known(c, events[..Whole(c, events, n)]))
    decreases |events|
  {
    hide *;
    if events == [] {
      NothingRead(c);
    } else {
      CutOfBody(c, events, n);
      var e, line := events[0], c.encode(events[0]);
      EncodesEach(c, e);
      if n <= |line| {
        TornFirst(c, e, n);
      } else {
        var m := n - |line| - 1;
        TornRead(c, events[1..], m);
        ReadPastFirst(c, e, Body(c, events[1..])[..m]);
        KnownOfCons(c, e, events[1..][..Whole(c, events[1..], m)]);
      }
    }
  }

  lemma EncodesEach<E(!new)>(c: Codec<E>, e: E)
    requires Faithful(c)
    ensures EncodesOneLine(c, e)
  {
  }

  lemma KnownOfCons<E>(c: Codec<E>, e: E, events: seq<E>)
    ensures Known(c, [e] + events) == (if c.known(e) then [e] else []) + Known(c, events)
    ensures var r := Rows(Known(c, events)); (if c.known(e) then Cons(e, r) else r) == Rows(Known(c, [e] + events))
  {
    assert ([e] + events)[1..] == events;
  }

  /** Where the cut falls: inside the first line or after it. */
  lemma CutOfBody<E>(c: Codec<E>, events: seq<E>, n: nat)
    requires events != [] && n <= |Body(c, events)|
    ensures var line, rest := c.encode(events[0]), Body(c, events[1..]);
      if n <= |line| then
        Body(c, events)[..n] == line[..n] && events[..Whole(c, events, n)] == if n == |line| then [events[0]] else []
      else
        var m := n - |line| - 1;
        && m <= |rest| && Body(c, events)[..n] == line + ['\n'] + rest[..m]
        && events[..Whole(c, events, n)] == [events[0]] + events[1..][..Whole(c, events[1..], m)]
  {
    var line, rest := c.encode(events[0]), Body(c, events[1..]);
    assert Body(c, events) == line + ['\n'] + rest;
  }

  /** Reading a torn mirror, exactly: the events whole before the cut, or, iff the cut splits a
      multi-byte character, nothing at all. */
  lemma TornMirror<E(!new)>(c: Codec<E>, events: seq<E>, n: nat)
    requires Faithful(c) && n <= |Body(c, events)|
    ensures Read(c, Body(c, events)[..n])
      == if IsUtf8(Body(c, events)[..n]) then Rows(Known(c, events[..Whole(c, events, n)])) else NotText
  {
    TornRead(c, events, n);
  }

  lemma {:induction false} BodyIsUtf8<E(!new)>(c: Codec<E>, events: seq<E>)
    requires Faithful(c)
    ensures IsUtf8(Body(c, events))
  {
    if events != [] {
      assert EncodesOneLine(c, events[0]);
      BodyIsUtf8(c, events[1..]);
      assert IsUtf8(['\n']);
      Utf8Suffix(c.encode(events[0]), ['\n']);
      Utf8Suffix(Line(c, events[0]), Body(c, events[1..]));
    }
  }

  lemma {:induction false} WholeOfAll<E>(c: Codec<E>, events: seq<E>, last: E, n: nat)
    requires n <= |Line(c, last)|
    ensures Whole(c, events + [last], |Body(c, events)| + n) >= |events|
    ensures Whole(c, events, |Body(c, events)|) == |events|
    decreases |events|
  {
    if events != [] {
      assert (events + [last])[1..] == events[1..] + [last];
      WholeOfAll(c, events[1..], last, n);
    }
  }

  // --- whole runs -----------------------------------------------------------

  /** The table, the file, and whether a process is up with its log open. */
  datatype System<E> = System(table: seq<E>, file: string, up: bool)

  /** A crash cuts the write in flight after any number of its bytes. */
  datatype Event<E> = Emits(e: E) | EmitDies(e: E, bytes: nat) | Rebuilds | RebuildDies(bytes: nat) | Dies

  function Cut(s: string, bytes: nat): string {
    if bytes <= |s| then s[..bytes] else s
  }

  predicate Enabled<E>(s: System<E>, e: Event<E>) {
    match e
    case Emits(_) => s.up
    case EmitDies(_, _) => s.up
    case Rebuilds => !s.up
    case RebuildDies(_) => !s.up
    case Dies => true
  }

  function After<E>(c: Codec<E>, s: System<E>, e: Event<E>): System<E> {
    match e
    case Emits(x) => System(s.table + [x], s.file + Line(c, x), true)
    case EmitDies(x, bytes) => System(s.table + [x], s.file + Cut(Line(c, x), bytes), false)
    case Rebuilds => s.(file := Body(c, s.table), up := true)
    case RebuildDies(bytes) => s.(file := Cut(Body(c, s.table), bytes), up := false)
    case Dies => s.(up := false)
  }

  ghost predicate IsRun<E>(c: Codec<E>, ss: seq<System<E>>, es: seq<Event<E>>) {
    && |ss| == |es| + 1
    && ss[0].file <= Body(c, ss[0].table) && (ss[0].up ==> ss[0].file == Body(c, ss[0].table))
    && forall k :: 0 <= k < |es| ==> Enabled(ss[k], es[k]) && ss[k + 1] == After(c, ss[k], es[k])
  }

  /** The file is always some first bytes of what it should be, and all of them while a process is
      up. */
  lemma {:induction false} FileIsAPrefix<E>(c: Codec<E>, ss: seq<System<E>>, es: seq<Event<E>>, n: nat)
    requires IsRun(c, ss, es) && n < |ss|
    ensures ss[n].file <= Body(c, ss[n].table) && (ss[n].up ==> ss[n].file == Body(c, ss[n].table))
    decreases n
  {
    if n > 0 {
      FileIsAPrefix(c, ss, es, n - 1);
      var s, e := ss[n - 1], es[n - 1];
      assert ss[n - 1 + 1] == After(c, s, e);
      if e.Emits? || e.EmitDies? {
        BodyOfConcat(c, s.table, [e.e]);
        assert Body(c, [e.e]) == Line(c, e.e) + Body(c, []);
        assert Body(c, [e.e]) == Line(c, e.e);
      }
    }
  }

  /** The events of a known kind among the first `m` of the table. */
  ghost predicate IsPrefixOf<E(!new)>(c: Codec<E>, events: seq<E>, table: seq<E>, from: nat) {
    exists m :: from <= m <= |table| && events == Known(c, table[..m])
  }

  /** Mirror agreement: over every run of emits, crashes inside any write and rebuilds, reading the
      mirror never reports corruption; it yields the first events of the table, as far as the reader
      knows their kinds, and all of them while a process is up; or it is unreadable when a tear
      splits a character. */
  lemma MirrorAgrees<E(!new)>(c: Codec<E>, ss: seq<System<E>>, es: seq<Event<E>>, n: nat)
    requires Faithful(c) && IsRun(c, ss, es) && n < |ss|
    ensures match Read(c, ss[n].file)
      case Rows(events) => IsPrefixOf(c, events, ss[n].table, if ss[n].up then |ss[n].table| else 0)
      case Corrupt(_) => false
      case NotText => !ss[n].up && !IsUtf8(ss[n].file)
  {
    hide EncodesOneLine, IsUtf8, Read;
    FileIsAPrefix(c, ss, es, n);
    var s := ss[n];
    var body := Body(c, s.table);
    assert s.file == body[..|s.file|];
    TornMirror(c, s.table, |s.file|);
    if s.up {
      BodyIsUtf8(c, s.table);
      if s.table != [] {
        WholeOfAll(c, s.table, s.table[0], 0);
      }
    }
  }

  /** After a crash inside `emit` the mirror lacks at most the event in flight. */
  lemma EmitLosesAtMostOne<E(!new)>(c: Codec<E>, ss: seq<System<E>>, es: seq<Event<E>>, n: nat)
    requires Faithful(c) && IsRun(c, ss, es) && n < |es| && es[n].EmitDies?
    ensures match Read(c, ss[n + 1].file)
      case Rows(events) => IsPrefixOf(c, events, ss[n + 1].table, |ss[n + 1].table| - 1)
      case Corrupt(_) => false
      case NotText => true
  {
    hide EncodesOneLine, IsUtf8, Read, Whole, Body, Line;
    FileIsAPrefix(c, ss, es, n);
    FileIsAPrefix(c, ss, es, n + 1);
    var s, t, e := ss[n], ss[n + 1], es[n].e;
    assert t == After(c, s, es[n]);
    TornMirror(c, t.table, |t.file|);
    assert t.file == Body(c, t.table)[..|t.file|];
    WholeOfAll(c, s.table, e, |Cut(Line(c, e), es[n].bytes)|);
  }

  /** The failing family: a process that dies anywhere inside a multi-byte character of an event's line
      leaves a mirror that cannot be read at all until it is rebuilt. */
  lemma SplitCharacterIsUnreadable<E(!new)>(c: Codec<E>, s: System<E>, e: E, whole: string, rest: string, bytes: nat)
    requires Faithful(c) && s.up && s.file == Body(c, s.table)
    requires c.encode(e) == whole + rest && IsUtf8(whole) && 0 < bytes < Width(rest)
    ensures Read(c, After(c, s, EmitDies(e, |whole| + bytes)).file) == NotText
  {
    hide EncodesOneLine, IsUtf8, Width, Body, Faithful, ReadFrom, Lines, After;
    var torn := whole + rest[..bytes];
    PartOfCharacter(rest, bytes);
    TornFile(c, s, e, whole, rest, bytes);
    BodyIsUtf8(c, s.table);
    Utf8Suffix(s.file, torn);
    Utf8Suffix(whole, rest[..bytes]);
  }

  lemma TornFile<E(!new)>(c: Codec<E>, s: System<E>, e: E, whole: string, rest: string, bytes: nat)
    requires c.encode(e) == whole + rest && bytes <= |rest|
    ensures After(c, s, EmitDies(e, |whole| + bytes)).file == s.file + (whole + rest[..bytes])
  {
    hide Cut;
    CutInside(whole, rest, bytes);
  }

  lemma CutInside(whole: string, rest: string, bytes: nat)
    requires bytes <= |rest|
    ensures Cut(whole + rest + ['\n'], |whole| + bytes) == whole + rest[..bytes]
  {
  }

  lemma PartOfCharacter(rest: string, bytes: nat)
    requires 0 < bytes < Width(rest)
    ensures !IsUtf8(rest[..bytes])
  {
    var part := rest[..bytes];
    assert part[0] == rest[0];
    assert Width(part) == 0;
  }
}
