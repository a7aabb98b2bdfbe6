/** Posting planned comments exactly once: each comment is written to the tracker and then recorded,
    as two separate durable writes with a possible crash between any two of them. */
module Ledger {
  import opened Artifacts

  /** The tracker's comments on one issue and the ledger of what has been recorded as posted. */
  datatype Board = Board(comments: seq<Item>, posted: set<Key>, proposed: bool)

  datatype Write = Post(item: Item) | Record(key: Key) | Propose

  function Apply(b: Board, w: Write): Board {
    match w
    case Post(item) => b.(comments := b.comments + [item])
    case Record(key) => b.(posted := b.posted + {key})
    case Propose => b.(proposed := true)
  }

  function ApplyAll(b: Board, ws: seq<Write>): Board
    decreases |ws|
  {
    if ws == [] then b else ApplyAll(Apply(b, ws[0]), ws[1..])
  }

  lemma {:induction false} ApplyConcat(b: Board, ws: seq<Write>, vs: seq<Write>)
    ensures ApplyAll(b, ws + vs) == ApplyAll(ApplyAll(b, ws), vs)
    decreases |ws|
  {
    if ws == [] {
      assert ws + vs == vs;
    } else {
      assert (ws + vs)[1..] == ws[1..] + vs;
      ApplyConcat(Apply(b, ws[0]), ws[1..], vs);
    }
  }

  /** The durable writes of an uninterrupted pass over `plan`, given what is already recorded. */
  function Writes(posted: set<Key>, plan: seq<Item>): seq<Write>
    decreases |plan|
  {
    if plan == [] then []
    else if plan[0].key in posted then Writes(posted, plan[1..])
    else [Post(plan[0]), Record(plan[0].key)] + Writes(posted + {plan[0].key}, plan[1..])
  }

  predicate HasFollowup(plan: seq<Item>) {
    exists k :: 0 <= k < |plan| && plan[k].kind.Note?
  }

  /** `translate_artifacts` ends by raising the proposal label; a replay in recovery does not. */
  function Life(posted: set<Key>, plan: seq<Item>, replay: bool): seq<Write> {
    Writes(posted, plan) + if !replay && HasFollowup(plan) then [Propose] else []
  }

  /** The board as the pump and recovery write it; `log` lists every durable write in order. */
  class Translator {
    var board: Board
    ghost var log: seq<Write>

    constructor (board: Board)
      ensures this.board == board && log == []
    {
      this.board, log := board, [];
    }

    method Put(w: Write)
      modifies this
      ensures board == Apply(old(board), w) && log == old(log) + [w]
    {
      board := match w
        case Post(item) => board.(comments := board.comments + [item])
        case Record(key) => board.(posted := board.posted + {key})
        case Propose => board.(proposed := true);
      log := log + [w];
    }

    /** The loop of `translate_artifacts` and `replay_done`. */
    method PostAll(plan: seq<Item>) returns (posted: nat, hasFollowup: bool)
      modifies this
      ensures log == old(log) + Writes(old(board).posted, plan)
      ensures board == ApplyAll(old(board), Writes(old(board).posted, plan))
      ensures hasFollowup == HasFollowup(plan) && 2 * posted == |log| - |old(log)|
    {
      posted, hasFollowup := 0, false;
      ghost var before, was := board, log;
      for k := 0 to |plan|
        invariant log + Writes(board.posted, plan[k..]) == was + Writes(before.posted, plan)
        invariant ApplyAll(board, Writes(board.posted, plan[k..])) == ApplyAll(before, Writes(before.posted, plan))
        invariant hasFollowup == HasFollowup(plan[..k]) && 2 * posted == |log| - |was|
      {
        var item := plan[k];
        assert plan[k..][0] == item && plan[k..][1..] == plan[k + 1..];
        assert plan[..k + 1] == plan[..k] + [item];
        FollowupAppend(plan[..k], item);
        if item.kind.Note? { hasFollowup := true; }
        if item.key in board.posted { continue; }
        ghost var rest := Writes(board.posted + {item.key}, plan[k + 1..]);
        ApplyConcat(board, [Post(item), Record(item.key)], rest);
        assert log + ([Post(item), Record(item.key)] + rest) == log + [Post(item)] + [Record(item.key)] + rest;
        assert [Post(item), Record(item.key)][1..] == [Record(item.key)];
        Put(Post(item));
        Put(Record(item.key));
        posted := posted + 1;
      }
      assert plan[..|plan|] == plan;
    }

    method TranslateArtifacts(reader: Reader, done: Done) returns (ok: bool)
      modifies this
      ensures ok == Plan(reader, done).Some?
      ensures log == old(log) + if ok then Life(old(board).posted, Plan(reader, done).value, false) else []
      ensures board == if ok then ApplyAll(old(board), Life(old(board).posted, Plan(reader, done).value, false)) else old(board)
    {
      var plan := TranslationPlan(reader, done);
      if plan.None? { return false; }
      ghost var before, was := board, log;
      var posted, hasFollowup := PostAll(plan.value);
      EndOfLife(before, plan.value, false);
      if hasFollowup { Put(Propose); }
      return true;
    }

    method ReplayDone(reader: Reader, done: Done) returns (ok: bool, posted: nat)
      modifies this
      ensures ok == Plan(reader, done).Some?
      ensures log == old(log) + if ok then Life(old(board).posted, Plan(reader, done).value, true) else []
      ensures board == if ok then ApplyAll(old(board), Life(old(board).posted, Plan(reader, done).value, true)) else old(board)
    {
      var plan := TranslationPlan(reader, done);
      if plan.None? { return false, 0; }
      EndOfLife(board, plan.value, true);
      var followup;
      posted, followup := PostAll(plan.value);
      return true, posted;
    }
  }

  lemma EndOfLife(b: Board, plan: seq<Item>, replay: bool)
    ensures var ws := Writes(b.posted, plan);
      if !replay && HasFollowup(plan) then
        ApplyAll(b, Life(b.posted, plan, replay)) == Apply(ApplyAll(b, ws), Propose)
      else Life(b.posted, plan, replay) == ws
  {
    ApplyConcat(b, Writes(b.posted, plan), [Propose]);
    assert ApplyAll(ApplyAll(b, Writes(b.posted, plan)), [Propose]) == Apply(ApplyAll(b, Writes(b.posted, plan)), Propose);
  }

  lemma FollowupAppend(plan: seq<Item>, item: Item)
    ensures HasFollowup(plan + [item]) <==> HasFollowup(plan) || item.kind.Note?
  {
    var longer := plan + [item];
    if HasFollowup(plan) {
      var k :| 0 <= k < |plan| && plan[k].kind.Note?;
      assert longer[k].kind.Note?;
    }
    assert longer[|plan|] == item;
  }

  // --- crashes --------------------------------------------------------------

  /** One life of the process on this issue: it posts `plan`, and dies after `writes` durable
      writes if there are that many; the worker's uuid plays no part. */
  datatype Attempt = Attempt(plan: seq<Item>, replay: bool, writes: nat)

  predicate Completes(posted: set<Key>, a: Attempt) {
    |Life(posted, a.plan, a.replay)| <= a.writes
  }

  function Done(posted: set<Key>, a: Attempt): seq<Write> {
    if Completes(posted, a) then Life(posted, a.plan, a.replay) else Life(posted, a.plan, a.replay)[..a.writes]
  }

  function Attempts(b: Board, attempts: seq<Attempt>): Board
    decreases |attempts|
  {
    if attempts == [] then b else Attempts(ApplyAll(b, Done(b.posted, attempts[0])), attempts[1..])
  }

  /** The attempt died between writing the comment for `key` and recording it. */
  predicate Loses(posted: set<Key>, a: Attempt, key: Key) {
    !Completes(posted, a) && a.writes > 0 && Life(posted, a.plan, a.replay)[a.writes - 1].Post?
    && Life(posted, a.plan, a.replay)[a.writes - 1].item.key == key
  }

  function Lost(b: Board, attempts: seq<Attempt>, key: Key): nat
    decreases |attempts|
  {
    if attempts == [] then 0
    else
      var here := if Loses(b.posted, attempts[0], key) then 1 else 0;
      here + Lost(ApplyAll(b, Done(b.posted, attempts[0])), attempts[1..], key)
  }

  function Crashes(b: Board, attempts: seq<Attempt>): nat
    decreases |attempts|
  {
    if attempts == [] then 0
    else
      var here := if Completes(b.posted, attempts[0]) then 0 else 1;
      here + Crashes(ApplyAll(b, Done(b.posted, attempts[0])), attempts[1..])
  }

  /** How many comments carry this key. */
  function Count(comments: seq<Item>, key: Key): nat {
    if comments == [] then 0
    else Count(comments[..|comments| - 1], key) + if comments[|comments| - 1].key == key then 1 else 0
  }

  function Recorded(b: Board, key: Key): nat {
    if key in b.posted then 1 else 0
  }

  /** Comments beyond the one recorded: what a prefix of the writes leaves over for `key`. */
  function Excess(ws: seq<Write>, key: Key): nat {
    if ws != [] && ws[|ws| - 1].Post? && ws[|ws| - 1].item.key == key then 1 else 0
  }

  lemma OnePost(b: Board, item: Item, key: Key)
    ensures Count(Apply(b, Post(item)).comments, key) == Count(b.comments, key) + if item.key == key then 1 else 0
  {
    var posted := b.comments + [item];
    assert posted[..|posted| - 1] == b.comments;
  }

  lemma TwoWrites(b: Board, item: Item, rest: seq<Write>)
    ensures ApplyAll(b, [Post(item), Record(item.key)] + rest) == ApplyAll(Apply(Apply(b, Post(item)), Record(item.key)), rest)
  {
    var ws := [Post(item), Record(item.key)] + rest;
    assert ws[1..] == [Record(item.key)] + rest && ws[1..][1..] == rest;
  }

  lemma ExcessOfRest(item: Item, rest: seq<Write>, key: Key)
    ensures Excess([Post(item), Record(item.key)] + rest, key) == Excess(rest, key)
  {
    var ws := [Post(item), Record(item.key)] + rest;
    assert rest != [] ==> ws[|ws| - 1] == rest[|rest| - 1];
  }

  lemma {:induction false} PrefixConserves(b: Board, plan: seq<Item>, n: nat, key: Key)
    requires n <= |Writes(b.posted, plan)|
    ensures var ws := Writes(b.posted, plan)[..n]; var c := ApplyAll(b, ws);
      Count(c.comments, key) - Recorded(c, key) == Count(b.comments, key) - Recorded(b, key) + Excess(ws, key)
    decreases |plan|
  {
    hide Count, Excess, ApplyAll;
    var ws := Writes(b.posted, plan)[..n];
    if n == 0 {
      NothingApplied(b, ws, key);
    } else if plan[0].key in b.posted {
      PrefixConserves(b, plan[1..], n, key);
    } else {
      var item := plan[0];
      OnePost(b, item, key);
      if n == 1 {
        assert ws == [Post(item)];
        OneApplied(b, item, key);
      } else {
        var rest := Writes(b.posted + {item.key}, plan[1..])[..n - 2];
        assert ws == [Post(item), Record(item.key)] + rest;
        TwoWrites(b, item, rest);
        ExcessOfRest(item, rest, key);
        PrefixConserves(Apply(Apply(b, Post(item)), Record(item.key)), plan[1..], n - 2, key);
      }
    }
  }

  lemma NothingApplied(b: Board, ws: seq<Write>, key: Key)
    requires ws == []
    ensures ApplyAll(b, ws) == b && Excess(ws, key) == 0
  {
  }

  lemma OneApplied(b: Board, item: Item, key: Key)
    ensures ApplyAll(b, [Post(item)]) == Apply(b, Post(item))
    ensures Excess([Post(item)], key) == if item.key == key then 1 else 0
  {
  }

  lemma AttemptConserves(b: Board, a: Attempt, key: Key)
    ensures var c := ApplyAll(b, Done(b.posted, a));
      Count(c.comments, key) - Recorded(c, key)
      == Count(b.comments, key) - Recorded(b, key) + if Loses(b.posted, a, key) then 1 else 0
  {
    var writes := Writes(b.posted, a.plan);
    hide Writes, Count, Loses, Done, Excess, ApplyAll;
    if a.writes < |writes| {
      PrefixConserves(b, a.plan, a.writes, key);
      CutShort(b.posted, a, key);
    } else {
      PrefixConserves(b, a.plan, |writes|, key);
      assert writes[..|writes|] == writes;
      RanThrough(b.posted, a, key);
      var rest := Done(b.posted, a)[|writes|..];
      assert Done(b.posted, a) == writes + rest;
      ApplyConcat(b, writes, rest);
      ProposingChangesNoCount(ApplyAll(b, writes), rest, key);
    }
  }

  lemma CutShort(posted: set<Key>, a: Attempt, key: Key)
    requires a.writes < |Writes(posted, a.plan)|
    ensures Done(posted, a) == Writes(posted, a.plan)[..a.writes]
    ensures Excess(Writes(posted, a.plan)[..a.writes], key) == if Loses(posted, a, key) then 1 else 0
  {
    hide Writes, HasFollowup;
  }

  lemma RanThrough(posted: set<Key>, a: Attempt, key: Key)
    requires |Writes(posted, a.plan)| <= a.writes
    ensures var writes := Writes(posted, a.plan);
      writes <= Done(posted, a) && Done(posted, a)[|writes|..] in {[], [Propose]}
      && Excess(writes, key) == 0 && !Loses(posted, a, key)
  {
    WritesEndRecorded(posted, a.plan);
    hide Writes, HasFollowup;
    var rest := Done(posted, a)[|Writes(posted, a.plan)|..];
    assert rest == if |rest| == 0 then [] else [Propose];
  }

  lemma ProposingChangesNoCount(b: Board, rest: seq<Write>, key: Key)
    requires rest == [] || rest == [Propose]
    ensures ApplyAll(b, rest).comments == b.comments && ApplyAll(b, rest).posted == b.posted
  {
  }

  lemma {:induction false} WritesEndRecorded(posted: set<Key>, plan: seq<Item>)
    ensures var ws := Writes(posted, plan); ws != [] ==> !ws[|ws| - 1].Post?
    decreases |plan|
  {
    if plan != [] {
      WritesEndRecorded(if plan[0].key in posted then posted else posted + {plan[0].key}, plan[1..]);
    }
  }

  /** Conservation, exactly: a key's comments are its ledger entry plus one for every attempt that
      died between posting and recording it. */
  lemma PostsAreConserved(b: Board, attempts: seq<Attempt>, key: Key)
    requires Count(b.comments, key) == Recorded(b, key)
    ensures var c := Attempts(b, attempts);
      Count(c.comments, key) == Recorded(c, key) + Lost(b, attempts, key)
  {
    ConservedFrom(b, attempts, key);
  }

  lemma {:induction false} ConservedFrom(b: Board, attempts: seq<Attempt>, key: Key)
    ensures var c := Attempts(b, attempts);
      Count(c.comments, key) - Recorded(c, key) == Count(b.comments, key) - Recorded(b, key) + Lost(b, attempts, key)
    decreases |attempts|
  {
    hide Loses, Done, Count;
    if attempts != [] {
      AttemptConserves(b, attempts[0], key);
      ConservedFrom(ApplyAll(b, Done(b.posted, attempts[0])), attempts[1..], key);
    }
  }

  lemma {:induction false} LostIsACrash(b: Board, attempts: seq<Attempt>, key: Key)
    ensures Lost(b, attempts, key) <= Crashes(b, attempts)
    decreases |attempts|
  {
    if attempts != [] {
      LostIsACrash(ApplyAll(b, Done(b.posted, attempts[0])), attempts[1..], key);
    }
  }

  // --- at least once --------------------------------------------------------

  lemma {:induction false} ApplyOnlyAdds(b: Board, ws: seq<Write>)
    ensures b.posted <= ApplyAll(b, ws).posted
    decreases |ws|
  {
    if ws != [] { ApplyOnlyAdds(Apply(b, ws[0]), ws[1..]); }
  }

  lemma {:induction false} AttemptsOnlyAdd(b: Board, attempts: seq<Attempt>)
    ensures b.posted <= Attempts(b, attempts).posted
    decreases |attempts|
  {
    if attempts != [] {
      ApplyOnlyAdds(b, Done(b.posted, attempts[0]));
      AttemptsOnlyAdd(ApplyAll(b, Done(b.posted, attempts[0])), attempts[1..]);
    }
  }

  lemma {:induction false} PassRecordsAll(b: Board, plan: seq<Item>, k: nat)
    requires k < |plan|
    ensures plan[k].key in ApplyAll(b, Writes(b.posted, plan)).posted
    decreases |plan|
  {
    var item, rest := plan[0], plan[1..];
    if item.key in b.posted {
      if k > 0 { PassRecordsAll(b, rest, k - 1); } else { ApplyOnlyAdds(b, Writes(b.posted, rest)); }
    } else {
      var next := Apply(Apply(b, Post(item)), Record(item.key));
      var tail := Writes(next.posted, rest);
      assert ([Post(item), Record(item.key)] + tail)[1..] == [Record(item.key)] + tail;
      assert ([Record(item.key)] + tail)[1..] == tail;
      if k > 0 { PassRecordsAll(next, rest, k - 1); } else { ApplyOnlyAdds(next, tail); }
    }
  }

  /** The ledger's promise. Whatever the attempts, their order, their uuids and their crashes, a
      planned comment is posted at most once more than there were crashes, and at least once if any
      attempt planning it ran to its end. */
  lemma {:induction false} PostedOnce(b: Board, attempts: seq<Attempt>, n: nat, k: nat)
    requires n < |attempts| && k < |attempts[n].plan|
    requires Count(b.comments, attempts[n].plan[k].key) == Recorded(b, attempts[n].plan[k].key)
    requires var before := Attempts(b, attempts[..n]); Completes(before.posted, attempts[n])
    ensures 1 <= Count(Attempts(b, attempts).comments, attempts[n].plan[k].key) <= 1 + Crashes(b, attempts)
  {
    var a, key, before := attempts[n], attempts[n].plan[k], Attempts(b, attempts[..n]);
    PostsAreConserved(b, attempts, key.key);
    LostIsACrash(b, attempts, key.key);
    var writes := Writes(before.posted, a.plan);
    PassRecordsAll(before, a.plan, k);
    ApplyConcat(before, writes, Life(before.posted, a.plan, a.replay)[|writes|..]);
    assert Life(before.posted, a.plan, a.replay) == writes + Life(before.posted, a.plan, a.replay)[|writes|..];
    ApplyOnlyAdds(ApplyAll(before, writes), Life(before.posted, a.plan, a.replay)[|writes|..]);
    var after := ApplyAll(before, Done(before.posted, a));
    AttemptsOnlyAdd(after, attempts[n + 1..]);
    AttemptsSplit(b, attempts, n);
  }

  lemma {:induction false} AttemptsSplit(b: Board, attempts: seq<Attempt>, n: nat)
    requires n < |attempts|
    ensures var before := Attempts(b, attempts[..n]);
      Attempts(b, attempts) == Attempts(ApplyAll(before, Done(before.posted, attempts[n])), attempts[n + 1..])
    decreases |attempts|
  {
    hide Done, ApplyAll;
    if n > 0 {
      AttemptsSplit(ApplyAll(b, Done(b.posted, attempts[0])), attempts[1..], n - 1);
      assert attempts[1..][..n - 1] == attempts[..n][1..] && attempts[1..][n..] == attempts[n + 1..];
    }
  }

  // --- the label ------------------------------------------------------------

  lemma {:induction false} LabelFollowsWrites(b: Board, ws: seq<Write>)
    ensures ApplyAll(b, ws).proposed <==> b.proposed || Propose in ws
    decreases |ws|
  {
    if ws != [] { LabelFollowsWrites(Apply(b, ws[0]), ws[1..]); }
  }

  lemma {:induction false} WritesNeverPropose(posted: set<Key>, plan: seq<Item>)
    ensures Propose !in Writes(posted, plan)
    decreases |plan|
  {
    if plan != [] {
      WritesNeverPropose(if plan[0].key in posted then posted else posted + {plan[0].key}, plan[1..]);
    }
  }

  /** The attempt gets as far as raising the label: it plans a follow-up note, it is the pump's own, and
      nothing cuts it short. */
  predicate Raises(posted: set<Key>, a: Attempt) {
    !a.replay && HasFollowup(a.plan) && Completes(posted, a)
  }

  lemma DoneProposes(posted: set<Key>, a: Attempt)
    ensures Propose in Done(posted, a) <==> Raises(posted, a)
  {
    WritesNeverPropose(posted, a.plan);
    hide Writes, HasFollowup;
    var life := Life(posted, a.plan, a.replay);
    if Raises(posted, a) { assert life[|life| - 1] == Propose; }
  }

  /** The follow-up label is up exactly when some attempt of the pump's own that planned a note ran to
      its end: an attempt that dies, even after its last note, leaves it down, and no replay makes up
      for it. */
  lemma {:induction false} LabelIsRaisedExactly(b: Board, attempts: seq<Attempt>)
    ensures Attempts(b, attempts).proposed <==>
      b.proposed || exists n :: 0 <= n < |attempts| && Raises(Attempts(b, attempts[..n]).posted, attempts[n])
    decreases |attempts|
  {
    hide Raises, Done, ApplyAll;
    if attempts != [] {
      var n := |attempts| - 1;
      var front, before := attempts[..n], Attempts(b, attempts[..n]);
      AttemptsSplit(b, attempts, n);
      LabelIsRaisedExactly(b, front);
      LabelFollowsWrites(before, Done(before.posted, attempts[n]));
      DoneProposes(before.posted, attempts[n]);
      assert forall k :: 0 <= k < n ==> front[..k] == attempts[..k];
      if m :| 0 <= m < n && Raises(Attempts(b, front[..m]).posted, front[m]) {
        assert Raises(Attempts(b, attempts[..m]).posted, attempts[m]);
      }
    }
  }

  /** A note that is on the board, recorded, and never announced by the label: the pump dies right
      before raising it, and recovery replays. */
  lemma ReplayLosesLabel(note: Item)
    requires note.kind.Note?
    ensures Attempts(Board([], {}, false), [Attempt([note], false, 2), Attempt([note], true, 0)]) == Board([note], {note.key}, false)
  {
    var b, c := Board([], {}, false), Board([note], {note.key}, false);
    var first, second := Attempt([note], false, 2), Attempt([note], true, 0);
    assert HasFollowup([note]) by { assert [note][0].kind.Note?; }
    assert [note][1..] == [];
    assert Writes({}, [note]) == [Post(note), Record(note.key)] + Writes({note.key}, []);
    assert Done({}, first) == [Post(note), Record(note.key)];
    assert [Post(note), Record(note.key)][1..] == [Record(note.key)];
    assert Apply(b, Post(note)) == Board([note], {}, false) && Apply(Board([note], {}, false), Record(note.key)) == c;
    TwoWrites(b, note, []);
    assert [Post(note), Record(note.key)] + [] == [Post(note), Record(note.key)];
    assert Writes({note.key}, [note]) == [];
    assert Done({note.key}, second) == [];
    assert [first, second][1..] == [second] && [second][1..] == [];
    assert Attempts(c, [second]) == Attempts(c, []) == c;
  }

  /** Every comment on the board says what its key says: equal keys carry equal bodies when they were
      planned by the same reader from artifacts of the same outcome. */
  lemma KeyDeterminesBody(reader: Reader, success: bool, a: Artifact, c: Artifact, j: nat, k: nat)
    requires ItemsOf(reader, success, a).Some? && j < |ItemsOf(reader, success, a).value|
    requires ItemsOf(reader, success, c).Some? && k < |ItemsOf(reader, success, c).value|
    requires ItemsOf(reader, success, a).value[j].key == ItemsOf(reader, success, c).value[k].key
    ensures ItemsOf(reader, success, a).value[j] == ItemsOf(reader, success, c).value[k]
  {
    KeyNamesArtifact(reader, success, a, j);
    KeyNamesArtifact(reader, success, c, k);
    hide ItemsOf;
  }

  lemma KeyNamesArtifact(reader: Reader, success: bool, a: Artifact, k: nat)
    requires ItemsOf(reader, success, a).Some? && k < |ItemsOf(reader, success, a).value|
    ensures var item := ItemsOf(reader, success, a).value[k];
      item.key.path == a.path && item.key.sha == a.bytes && (item.key.index == k || (item.key.index == WHOLE_FILE_INDEX && k == 0))
  {
    hide ParseFindings, ParseFollowups, FileName;
  }
}
