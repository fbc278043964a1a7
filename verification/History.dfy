/** Undo and redo rebuilt from an append-only log of timeline revisions. */
module History {
  import opened Domain

  /** The content of a timeline: its length and an opaque label for its phrases. */
  datatype Content = Content(totalBeats: nat, phrases: nat)

  datatype Reason = InitialSourceMapping | UserEdit | Undo | Redo | RestoreRevision | SourceReconcile

  datatype Revision = Revision(content: Content, reason: Reason, restoredFrom: Option<nat>)

  /** Revisions are numbered from 1 in the order they were appended. */
  type Log = seq<Revision>

  /** The revision the user is at, and the revisions an undo or a redo leads back to. */
  datatype Stacks = Stacks(current: Option<nat>, undo: seq<nat>, redo: seq<nat>)

  const Empty := Stacks(None, [], [])

  /** Revision numbers are stored as signed 64-bit integers. */
  const MAXIMUM_REVISION: nat := 0x7FFF_FFFF_FFFF_FFFF

  /** How many more revisions a log can take. */
  function Room(log: Log): nat { if |log| < MAXIMUM_REVISION then MAXIMUM_REVISION - |log| else 0 }

  function Last<T>(xs: seq<T>): Option<T> { if xs == [] then None else Some(xs[|xs| - 1]) }

  function Popped<T>(xs: seq<T>): seq<T> { if xs == [] then [] else xs[..|xs| - 1] }

  /** The previous position goes onto the undo stack, if there is one. */
  function Pushed(s: Stacks): seq<nat> { if s.current.Some? then s.undo + [s.current.value] else s.undo }

  /** One revision of the log; `None` reports a corrupt history. */
  function Advance(s: Stacks, r: Revision, number: nat): Option<Stacks> {
    match r.reason
    case InitialSourceMapping => Some(s.(current := Some(number)))
    case Undo =>
      if r.restoredFrom.None? || s.current.None? || Last(s.undo) != r.restoredFrom then None
      else Some(Stacks(r.restoredFrom, Popped(s.undo), s.redo + [s.current.value]))
    case Redo =>
      if r.restoredFrom.None? || s.current.None? || Last(s.redo) != r.restoredFrom then None
      else Some(Stacks(r.restoredFrom, s.undo + [s.current.value], Popped(s.redo)))
    case RestoreRevision => Some(Stacks(r.restoredFrom, Pushed(s), []))
    case _ => Some(Stacks(Some(number), Pushed(s), []))
  }

  function Replay(log: Log, n: nat): Option<Stacks>
    requires n <= |log|
  {
    if n == 0 then Some(Empty)
    else
      var before := Replay(log, n - 1);
      if before.None? then None else Advance(before.value, log[n - 1], n)
  }

  /** The whole log, which also has to end at some revision. */
  function Replayed(log: Log): Option<Stacks> {
    var s := Replay(log, |log|);
    if s.Some? && s.value.current.None? then None else s
  }

  /** Once corrupt, always corrupt. */
  lemma {:induction false} CorruptStays(log: Log, m: nat, n: nat)
    requires m <= n <= |log| && Replay(log, m).None?
    ensures Replay(log, n).None?
  {
    if m < n { CorruptStays(log, m, n - 1); }
  }

  method ReplayLog(log: Log) returns (r: Option<Stacks>)
    ensures r == Replayed(log)
  {
    var current: Option<nat> := None;
    var undo: seq<nat>, redo: seq<nat> := [], [];
    for i := 0 to |log|
      invariant Replay(log, i) == Some(Stacks(current, undo, redo))
    {
      var summary := log[i];
      ghost var next := Replay(log, i + 1);
      if next.None? { CorruptStays(log, i + 1, |log|); }
      match summary.reason {
        case InitialSourceMapping => current := Some(i + 1);
        case Undo =>
          if summary.restoredFrom.None? || current.None? { return None; }
          var top := Last(undo);
          undo := Popped(undo);
          if top != summary.restoredFrom { return None; }
          redo := redo + [current.value];
          current := summary.restoredFrom;
        case Redo =>
          if summary.restoredFrom.None? || current.None? { return None; }
          var top := Last(redo);
          redo := Popped(redo);
          if top != summary.restoredFrom { return None; }
          undo := undo + [current.value];
          current := summary.restoredFrom;
        case RestoreRevision =>
          if current.Some? { undo := undo + [current.value]; }
          current := summary.restoredFrom;
          redo := [];
        case _ =>
          if current.Some? { undo := undo + [current.value]; }
          current := Some(i + 1);
          redo := [];
      }
    }
    if current.None? { return None; }
    r := Some(Stacks(current, undo, redo));
  }

  // ----- What the library appends ------------------------------------------------------

  datatype Operation =
    | Import(content: Content)
    | Edit(phrases: nat)
    | Reconcile(content: Content)
    | UndoEdit
    | RedoEdit
    | RestoreTo(target: nat)
    | Reuse(phrases: nat)

  function Head(log: Log): Revision
    requires log != []
  {
    log[|log| - 1]
  }

  predicate Exists(log: Log, number: nat) { 1 <= number <= |log| }

  /** The content of an existing revision. */
  function At(log: Log, number: nat): Content
    requires Exists(log, number)
  {
    log[number - 1].content
  }

  /** A revision can only be restored over a head of the same length. */
  predicate Restorable(log: Log, target: Option<nat>) {
    log != [] && target.Some? && Exists(log, target.value)
      && At(log, target.value).totalBeats == Head(log).content.totalBeats
  }

  function Restored(log: Log, target: Option<nat>, reason: Reason): Log {
    if Restorable(log, target) then log + [Revision(At(log, target.value), reason, target)] else log
  }

  /** The target an undo or a redo would go to now. */
  function UndoTarget(log: Log): Option<nat> { var s := Replayed(log); if s.None? then None else Last(s.value.undo) }

  function RedoTarget(log: Log): Option<nat> { var s := Replayed(log); if s.None? then None else Last(s.value.redo) }

  /** An operation that is refused leaves the log as it was. Copying another track's timeline is recorded as a
      restore that names no revision. */
  function Append(log: Log, op: Operation): Log {
    if (log == []) != op.Import? || Room(log) == 0 then log
    else
      match op
      case Import(content) => [Revision(content, InitialSourceMapping, None)]
      case Edit(phrases) =>
        var content := Content(Head(log).content.totalBeats, phrases);
        if content == Head(log).content then log else log + [Revision(content, UserEdit, None)]
      case Reconcile(content) => log + [Revision(content, SourceReconcile, None)]
      case UndoEdit => Restored(log, UndoTarget(log), Undo)
      case RedoEdit => Restored(log, RedoTarget(log), Redo)
      case RestoreTo(target) => Restored(log, Some(target), RestoreRevision)
      case Reuse(phrases) =>
        log + [Revision(Content(Head(log).content.totalBeats, phrases), RestoreRevision, None)]
  }

  function Built(ops: seq<Operation>): Log {
    if ops == [] then [] else Append(Built(ops[..|ops| - 1]), ops[|ops| - 1])
  }

  // ----- Every log the library builds can be replayed ----------------------------------

  predicate AllExist(log: Log, numbers: seq<nat>) { forall i :: 0 <= i < |numbers| ==> Exists(log, numbers[i]) }

  /** The replay never runs into a bad entry, refers to existing revisions, and its position has the head's
      content; it is lost exactly right after a copied timeline. */
  predicate Sound(log: Log) {
    var s := Replay(log, |log|);
    && s.Some? && AllExist(log, s.value.undo) && AllExist(log, s.value.redo)
    && (log != [] ==>
          if s.value.current.None? then Copied(Head(log))
          else
            && !Copied(Head(log)) && Exists(log, s.value.current.value)
            && At(log, s.value.current.value) == Head(log).content)
  }

  predicate Copied(r: Revision) { r.reason.RestoreRevision? && r.restoredFrom.None? }

  lemma {:induction false} ReplayPrefix(log: Log, more: Log, n: nat)
    requires n <= |log|
    ensures Replay(log + more, n) == Replay(log, n)
  {
    if n > 0 {
      ReplayPrefix(log, more, n - 1);
      assert (log + more)[n - 1] == log[n - 1];
    }
  }

  lemma ReplayOne(log: Log, r: Revision)
    ensures Replay(log + [r], |log| + 1)
      == if Replay(log, |log|).None? then None else Advance(Replay(log, |log|).value, r, |log| + 1)
  {
    ReplayPrefix(log, [r], |log|);
    assert (log + [r])[|log|] == r;
  }

  /** An entry the library may append: an undo or a redo names the top of its stack, and a restored revision exists
      and has the entry's content. */
  predicate Fits(log: Log, r: Revision) {
    && (r.reason.Undo? || r.reason.Redo? ==>
          && Replayed(log).Some? && r.restoredFrom.Some?
          && r.restoredFrom
            == (if r.reason.Undo? then Last(Replayed(log).value.undo) else Last(Replayed(log).value.redo)))
    && (r.reason.InitialSourceMapping? ==> log == [])
    && (r.restoredFrom.Some? ==> Exists(log, r.restoredFrom.value) && At(log, r.restoredFrom.value) == r.content)
  }

  lemma FittingKeepsSound(log: Log, r: Revision)
    requires Sound(log) && Fits(log, r)
    ensures Sound(log + [r])
  {
    ReplayOne(log, r);
    assert log == [] ==> Replay(log, 0) == Some(Empty);
    hide Replay;
    var next := log + [r];
    assert forall number :: Exists(log, number) ==> Exists(next, number) && At(next, number) == At(log, number);
    assert Head(next) == r && |next| == |log| + 1 && At(next, |next|) == r.content;
  }

  lemma AppendFits(log: Log, op: Operation)
    requires Append(log, op) != log
    ensures var next := Append(log, op); next != [] && next == log + [Head(next)] && Fits(log, Head(next))
  {
    hide Replayed;
    if log == [] { assert Append(log, op) == log + [Revision(op.content, InitialSourceMapping, None)]; }
  }

  lemma AppendKeepsSound(log: Log, op: Operation)
    requires Sound(log)
    ensures Sound(Append(log, op))
  {
    hide Append, Sound;
    if Append(log, op) != log {
      AppendFits(log, op);
      FittingKeepsSound(log, Head(Append(log, op)));
    }
  }

  lemma {:induction false} BuiltIsSound(ops: seq<Operation>)
    ensures Sound(Built(ops))
  {
    if ops != [] {
      BuiltIsSound(ops[..|ops| - 1]);
      AppendKeepsSound(Built(ops[..|ops| - 1]), ops[|ops| - 1]);
    }
  }

  /** A log built by any operations is reported corrupt exactly when it is empty or its head is a timeline copied
      from another track; otherwise the position's content is the head's. */
  lemma CorruptExactlyAfterACopy(ops: seq<Operation>)
    ensures var log := Built(ops);
      && (Replayed(log).None? <==> log == [] || Copied(Head(log)))
      && (Replayed(log).Some? ==>
            var c := Replayed(log).value.current;
            c.Some? && Exists(log, c.value) && At(log, c.value) == Head(log).content)
  {
    BuiltIsSound(ops);
  }

  // ----- Undo and redo walk along a fixed line -----------------------------------------

  function Reversed<T>(xs: seq<T>): (r: seq<T>)
    ensures |r| == |xs| && forall i :: 0 <= i < |xs| ==> r[i] == xs[|xs| - 1 - i]
  {
    seq(|xs|, i requires 0 <= i < |xs| => xs[|xs| - 1 - i])
  }

  /** All revisions within reach, in the order redo visits them; the position is at index `|s.undo|`. */
  function Line(s: Stacks): seq<nat>
    requires s.current.Some?
  {
    s.undo + [s.current.value] + Reversed(s.redo)
  }

  /** A log that replays to `s`, at a position whose content is the head's. */
  predicate Standing(log: Log, s: Stacks) {
    && log != [] && Replayed(log) == Some(s) && s.current.Some?
    && AllExist(log, s.undo) && AllExist(log, s.redo) && Exists(log, s.current.value)
    && At(log, s.current.value) == Head(log).content
  }

  lemma LineExists(log: Log, s: Stacks)
    requires Standing(log, s)
    ensures AllExist(log, Line(s)) && |s.undo| < |Line(s)| && Line(s)[|s.undo|] == s.current.value
  {
  }

  predicate SameLength(log: Log, a: nat, b: nat)
    requires Exists(log, a) && Exists(log, b)
  {
    At(log, a).totalBeats == At(log, b).totalBeats
  }

  /** A place on the line, and how many more revisions the log can take. */
  datatype Spot = Spot(at: nat, room: nat)

  /** Where one undo or redo leads on the line: one place along, unless the line ends, the length differs or the
      revision numbers have run out. */
  function Moved(log: Log, line: seq<nat>, spot: Spot, back: bool): (r: Spot)
    requires AllExist(log, line) && spot.at < |line|
    ensures r.at < |line|
  {
    var at := spot.at;
    if spot.room == 0 then spot
    else if back then if at > 0 && SameLength(log, line[at - 1], line[at]) then Spot(at - 1, spot.room - 1) else spot
    else if at + 1 < |line| && SameLength(log, line[at + 1], line[at]) then Spot(at + 1, spot.room - 1) else spot
  }

  function Step(back: bool): Operation { if back then UndoEdit else RedoEdit }

  lemma UndoStep(log: Log, s: Stacks)
    requires Standing(log, s) && Restorable(log, Last(s.undo)) && Room(log) > 0
    ensures var t := Stacks(Last(s.undo), Popped(s.undo), s.redo + [s.current.value]);
      Append(log, UndoEdit) == log + [Revision(At(log, Last(s.undo).value), Undo, Last(s.undo))]
      && Standing(Append(log, UndoEdit), t) && Line(t) == Line(s)
  {
    ReplayOne(log, Revision(At(log, Last(s.undo).value), Undo, Last(s.undo)));
    hide Replay;
    assert s.undo == Popped(s.undo) + [Last(s.undo).value];
    assert Reversed(s.redo + [s.current.value]) == [s.current.value] + Reversed(s.redo);
  }

  lemma RedoStep(log: Log, s: Stacks)
    requires Standing(log, s) && Restorable(log, Last(s.redo)) && Room(log) > 0
    ensures var t := Stacks(Last(s.redo), s.undo + [s.current.value], Popped(s.redo));
      Append(log, RedoEdit) == log + [Revision(At(log, Last(s.redo).value), Redo, Last(s.redo))]
      && Standing(Append(log, RedoEdit), t) && Line(t) == Line(s)
  {
    ReplayOne(log, Revision(At(log, Last(s.redo).value), Redo, Last(s.redo)));
    hide Replay;
    assert s.redo == Popped(s.redo) + [Last(s.redo).value];
    assert Reversed(s.redo) == [Last(s.redo).value] + Reversed(Popped(s.redo));
  }

  /** One undo or redo keeps the line and moves the position along it. */
  lemma StepOnLine(log: Log, s: Stacks, back: bool)
    requires Standing(log, s)
    ensures AllExist(log, Line(s)) && |s.undo| < |Line(s)|
    ensures var next := Append(log, Step(back)); var t := Replayed(next);
      && log <= next && t.Some? && Standing(next, t.value)
      && Line(t.value) == Line(s)
      && Spot(|t.value.undo|, Room(next)) == Moved(log, Line(s), Spot(|s.undo|, Room(log)), back)
  {
    LineExists(log, s);
    if back {
      if Restorable(log, Last(s.undo)) && Room(log) > 0 { UndoStep(log, s); }
    } else {
      if s.redo != [] { assert Line(s)[|s.undo| + 1] == s.redo[|s.redo| - 1]; }
      if Restorable(log, Last(s.redo)) && Room(log) > 0 { RedoStep(log, s); }
    }
  }

  function Walked(log: Log, walk: seq<bool>): Log {
    if walk == [] then log else Append(Walked(log, walk[..|walk| - 1]), Step(walk[|walk| - 1]))
  }

  function Place(log: Log, line: seq<nat>, spot: Spot, walk: seq<bool>): (r: Spot)
    requires AllExist(log, line) && spot.at < |line|
    ensures r.at < |line|
  {
    if walk == [] then spot else Moved(log, line, Place(log, line, spot, walk[..|walk| - 1]), walk[|walk| - 1])
  }

  lemma MovedStable(log: Log, next: Log, line: seq<nat>, spot: Spot, back: bool)
    requires log <= next && AllExist(log, line) && spot.at < |line|
    ensures AllExist(next, line) && Moved(next, line, spot, back) == Moved(log, line, spot, back)
  {
  }

  /** However often undo and redo are used, in any order, the revisions within reach stay the same, and the head
      always shows the content of the place the walk has come to. */
  lemma {:induction false} UndoAndRedoWalkTheLine(log: Log, s: Stacks, walk: seq<bool>)
    requires Standing(log, s)
    ensures AllExist(log, Line(s)) && |s.undo| < |Line(s)|
    ensures var end := Walked(log, walk); var t := Replayed(end);
      var spot := Place(log, Line(s), Spot(|s.undo|, Room(log)), walk);
      && log <= end && t.Some? && Standing(end, t.value)
      && Line(t.value) == Line(s) && Spot(|t.value.undo|, Room(end)) == spot
      && Head(end).content == At(log, Line(s)[spot.at])
  {
    LineExists(log, s);
    if walk != [] {
      var n := |walk| - 1;
      UndoAndRedoWalkTheLine(log, s, walk[..n]);
      var mid := Walked(log, walk[..n]);
      var m := Replayed(mid).value;
      hide Replayed, Append, Room, Moved;
      StepOnLine(mid, m, walk[n]);
      MovedStable(log, mid, Line(s), Spot(|m.undo|, Room(mid)), walk[n]);
      LineExists(Walked(log, walk), Replayed(Walked(log, walk)).value);
    }
  }

  // ----- Edits, undone and redone ------------------------------------------------------

  function Edited(log: Log, marks: seq<nat>): Log {
    if marks == [] then log else Append(Edited(log, marks[..|marks| - 1]), Edit(marks[|marks| - 1]))
  }

  /** Every edit changes something. */
  predicate Effective(mark: nat, marks: seq<nat>) {
    (marks != [] ==> marks[0] != mark) && forall i :: 0 < i < |marks| ==> marks[i] != marks[i - 1]
  }

  function Numbers(from: nat, n: nat): (r: seq<nat>)
    ensures |r| == n && forall i :: 0 <= i < n ==> r[i] == from + i
  {
    seq(n, i => from + i)
  }

  lemma EditStep(log: Log, s: Stacks, mark: nat)
    requires Standing(log, s) && mark != Head(log).content.phrases && Room(log) > 0
    ensures var content := Content(Head(log).content.totalBeats, mark);
      var next := log + [Revision(content, UserEdit, None)];
      Append(log, Edit(mark)) == next && Standing(next, Stacks(Some(|next|), s.undo + [s.current.value], []))
  {
    ReplayOne(log, Revision(Content(Head(log).content.totalBeats, mark), UserEdit, None));
    hide Replay;
  }

  /** After n edits, as long as there are numbers for them, the line ends in the old position and the n new
      revisions, all of the old length. */
  lemma {:induction false} EditsExtendTheLine(log: Log, s: Stacks, marks: seq<nat>)
    requires Standing(log, s) && Effective(Head(log).content.phrases, marks) && |marks| <= Room(log)
    ensures var end, n := Edited(log, marks), |marks|; var t := Replayed(end);
      && t.Some? && Standing(end, t.value) && log <= end && |end| == |log| + n
      && t.value.undo + [t.value.current.value] == s.undo + [s.current.value] + Numbers(|log| + 1, n)
      && (n > 0 ==> t.value.redo == [])
      && Head(end).content
        == Content(Head(log).content.totalBeats, if n == 0 then Head(log).content.phrases else marks[n - 1])
      && (forall i :: 0 <= i < n ==> end[|log| + i].content == Content(Head(log).content.totalBeats, marks[i]))
  {
    if marks != [] {
      var n := |marks| - 1;
      assert Effective(Head(log).content.phrases, marks[..n]);
      EditsExtendTheLine(log, s, marks[..n]);
      var mid := Edited(log, marks[..n]);
      hide Replayed, Append;
      EditStep(mid, Replayed(mid).value, marks[n]);
      assert Numbers(|log| + 1, n + 1) == Numbers(|log| + 1, n) + [|log| + 1 + n];
    }
  }

  function Repeat(back: bool, n: nat): (r: seq<bool>)
    ensures |r| == n && forall i :: 0 <= i < n ==> r[i] == back
  {
    seq(n, _ => back)
  }

  /** The places between `from` and `to` all have one length. */
  predicate Level(log: Log, line: seq<nat>, from: nat, to: nat)
    requires AllExist(log, line)
  {
    from <= to < |line| && forall i :: from <= i < to ==> SameLength(log, line[i], line[i + 1])
  }

  lemma {:induction false} WalksBack(log: Log, line: seq<nat>, spot: Spot, n: nat)
    requires AllExist(log, line) && n <= spot.at < |line| && n <= spot.room && Level(log, line, spot.at - n, spot.at)
    ensures Place(log, line, spot, Repeat(true, n)) == Spot(spot.at - n, spot.room - n)
  {
    if n > 0 {
      WalksBack(log, line, spot, n - 1);
      assert Repeat(true, n)[..n - 1] == Repeat(true, n - 1);
      assert SameLength(log, line[spot.at - n], line[spot.at - n + 1]);
    }
  }

  lemma {:induction false} WalksForth(log: Log, line: seq<nat>, spot: Spot, n: nat, k: nat)
    requires AllExist(log, line) && k <= n <= spot.at < |line| && n + k <= spot.room
      && Level(log, line, spot.at - n, spot.at)
    ensures Place(log, line, spot, Repeat(true, n) + Repeat(false, k)) == Spot(spot.at - n + k, spot.room - n - k)
  {
    var walk := Repeat(true, n) + Repeat(false, k);
    if k == 0 {
      assert walk == Repeat(true, n);
      WalksBack(log, line, spot, n);
    } else {
      WalksForth(log, line, spot, n, k - 1);
      assert walk[..|walk| - 1] == Repeat(true, n) + Repeat(false, k - 1);
      assert SameLength(log, line[spot.at - n + k - 1], line[spot.at - n + k]);
    }
  }

  lemma EditedLineIsLevel(log: Log, s: Stacks, marks: seq<nat>)
    requires Standing(log, s) && Effective(Head(log).content.phrases, marks) && 0 < |marks| <= Room(log)
    ensures var end, n := Edited(log, marks), |marks|; var t := Replayed(end);
      && t.Some? && Standing(end, t.value) && AllExist(end, Line(t.value))
      && |t.value.undo| == |s.undo| + n && Line(t.value)[|s.undo|] == s.current.value
      && Level(end, Line(t.value), |s.undo|, |s.undo| + n)
  {
    EditsExtendTheLine(log, s, marks);
    var end, n := Edited(log, marks), |marks|;
    var t := Replayed(end).value;
    hide Replayed, Edited;
    LineExists(end, t);
    assert Line(t) == s.undo + [s.current.value] + Numbers(|log| + 1, n);
    forall i | |s.undo| <= i <= |s.undo| + n ensures At(end, Line(t)[i]).totalBeats == Head(log).content.totalBeats {
      if i == |s.undo| {
        assert end[s.current.value - 1] == log[s.current.value - 1];
      } else {
        assert Line(t)[i] == |log| + (i - |s.undo|);
        var k := i - |s.undo| - 1;
        assert end[|log| + k].content == Content(Head(log).content.totalBeats, marks[k]);
      }
    }
  }

  /** Any number of edits, as many undos and as many redos, as long as there are numbers for them: the
      undos reach the content before the edits and the redos the content of the last edit, whatever the log looked
      like before. */
  lemma EditsUndoneAndRedone(log: Log, s: Stacks, marks: seq<nat>)
    requires Standing(log, s) && Effective(Head(log).content.phrases, marks) && 0 < |marks| && 3 * |marks| <= Room(log)
    ensures var end, n := Edited(log, marks), |marks|;
      && var undone, redone := Walked(end, Repeat(true, n)), Walked(end, Repeat(true, n) + Repeat(false, n));
      && undone != [] && redone != [] && end != []
      && Head(undone).content == Head(log).content && Head(redone).content == Head(end).content
      && Head(redone).content.phrases == marks[n - 1] && Replayed(redone) == Replayed(end)
  {
    EditsExtendTheLine(log, s, marks);
    EditedLineIsLevel(log, s, marks);
    var end, n := Edited(log, marks), |marks|;
    var t := Replayed(end).value;
    hide Replayed, Edited, Walked, Append, Place;
    WalksBack(end, Line(t), Spot(|t.undo|, Room(end)), n);
    WalksForth(end, Line(t), Spot(|t.undo|, Room(end)), n, n);
    UndoAndRedoWalkTheLine(end, t, Repeat(true, n));
    UndoAndRedoWalkTheLine(end, t, Repeat(true, n) + Repeat(false, n));
    assert end[s.current.value - 1] == log[s.current.value - 1];
    LineDetermines(t, Replayed(Walked(end, Repeat(true, n) + Repeat(false, n))).value);
  }

  /** The line and the position on it determine both stacks. */
  lemma LineDetermines(s: Stacks, t: Stacks)
    requires s.current.Some? && t.current.Some? && Line(s) == Line(t) && |s.undo| == |t.undo|
    ensures s == t
  {
    var n := |s.undo|;
    assert s.undo == Line(s)[..n] && t.undo == Line(t)[..n];
    assert s.current.value == Line(s)[n] && t.current.value == Line(t)[n];
    assert |s.redo| == |Line(s)| - n - 1 == |t.redo|;
    forall i | 0 <= i < |s.redo| ensures s.redo[i] == t.redo[i] {
      assert Line(s)[|Line(s)| - 1 - i] == s.redo[i] && Line(t)[|Line(t)| - 1 - i] == t.redo[i];
    }
  }

  // ----- A copied timeline is lost to undo ---------------------------------------------

  /** Copying a timeline and editing it, with numbers left for both and one more, leaves the copy on neither
      stack: one undo goes straight back to what was there before the copy. */
  lemma CopyIsSkipped(log: Log, s: Stacks, copied: nat, mark: nat)
    requires Standing(log, s) && mark != copied && Room(log) >= 3
    ensures var c := Append(log, Reuse(copied)); var e := Append(c, Edit(mark)); var t := Replayed(e);
      && Replayed(c).None? && |c| == |log| + 1 && UndoTarget(c).None?
      && t == Some(Stacks(Some(|log| + 2), s.undo + [s.current.value], []))
      && |log| + 1 !in Line(t.value)
      && Head(Append(e, UndoEdit)).content == Head(log).content
  {
    var total := Head(log).content.totalBeats;
    var r := Revision(Content(total, copied), RestoreRevision, None);
    var u := Revision(Content(total, mark), UserEdit, None);
    var c := log + [r];
    var e, t := c + [u], Stacks(Some(|log| + 2), s.undo + [s.current.value], []);
    assert Replay(c, |c|) == Some(Stacks(None, s.undo + [s.current.value], [])) by { ReplayOne(log, r); }
    assert Replayed(e) == Some(t) by { ReplayOne(c, u); }
    hide Replay;
    assert Append(log, Reuse(copied)) == c && Append(c, Edit(mark)) == e;
    assert e[s.current.value - 1] == log[s.current.value - 1] && At(e, s.current.value) == Head(log).content;
    hide Append, Replayed;
    UndoStep(e, t);
  }
}
