/** The router's circuits over whole histories of registrations, choices and reported results. */
module CircuitHistory {
  import opened Wrappers
  import opened Routing

  /** A choice begins at `began`, and looks at the clock once per candidate. */
  datatype Event =
    | Add(channel: string, name: string)
    | Choose(channel: string, looks: nat -> Look, began: int)
    | Record(name: string, ok: bool, at: int)

  function Step(board: Board, e: Event): Board {
    match e
    case Add(channel, name) => Registered(board, channel, name)
    case Choose(channel, looks, _) => Visited(board, channel, looks)
    case Record(name, ok, at) => ReportedAll(board, name, ok, at)
  }

  function Exec(events: seq<Event>): Board {
    if events == [] then map[] else Step(Exec(events[..|events| - 1]), events[|events| - 1])
  }

  /** Time does not step back, and nothing happens after `now`. */
  ghost predicate InOrder(events: seq<Event>, now: int) {
    if events == [] then true
    else
      var front, e := events[..|events| - 1], events[|events| - 1];
      match e
      case Add(_, _) => InOrder(front, now)
      case Choose(_, looks, began) =>
        began <= now && (forall i: nat :: began <= looks(i).at <= now) && InOrder(front, began)
      case Record(_, _, at) => at <= now && InOrder(front, at)
  }

  // ---------- The log of results ----------

  /** The names registered for a channel, in order. */
  function Roster(events: seq<Event>, channel: string): seq<string> {
    if events == [] then []
    else
      var front, e := Roster(events[..|events| - 1], channel), events[|events| - 1];
      if e.Add? && e.channel == channel then front + [e.name] else front
  }

  /** No name is registered twice, be it for another channel. */
  predicate FreshNames(events: seq<Event>) {
    events != [] ==>
      var front, e := events[..|events| - 1], events[|events| - 1];
      FreshNames(front) && (e.Add? ==> !EverAdded(front, e.name))
  }

  predicate EverAdded(events: seq<Event>, name: string) {
    events != [] && ((events[|events| - 1].Add? && events[|events| - 1].name == name)
                     || EverAdded(events[..|events| - 1], name))
  }

  /** The length of the trailing run of errors since the registration. */
  function Errors(events: seq<Event>, name: string): nat {
    if events == [] then 0
    else
      var front, e := events[..|events| - 1], events[|events| - 1];
      if e.Choose? || e.name != name then Errors(front, name)
      else if e.Record? && !e.ok then Errors(front, name) + 1
      else 0
  }

  function LastError(events: seq<Event>, name: string): int {
    if events == [] then 0
    else
      var front, e := events[..|events| - 1], events[|events| - 1];
      if e.Record? && e.name == name && !e.ok then e.at else LastError(front, name)
  }

  // ---------- The circuits mirror the log ----------

  predicate Mirrors(events: seq<Event>, b: Breaker, now: int) {
    && EverAdded(events, b.name)
    && b.failures == Errors(events, b.name)
    && (b.state.Closed? <==> b.failures < THRESHOLD)
    && (!b.state.Closed? ==> b.openedAt == LastError(events, b.name))
    && (b.state.HalfOpen? ==> now - LastError(events, b.name) >= COOLDOWN)
  }

  ghost predicate BoardMirrors(events: seq<Event>, board: Board, now: int) {
    && UniqueNames(board)
    && (forall channel, i | At(board, channel, i) :: Mirrors(events, board[channel][i], now))
    && (forall channel :: channel !in board ==> Roster(events, channel) == [])
    && (forall channel | channel in board :: |board[channel]| == |Roster(events, channel)|)
    && (forall channel, i | At(board, channel, i) :: board[channel][i].name == Roster(events, channel)[i])
  }

  lemma RegisteredAt(board: Board, channel: string, name: string)
    ensures var after := Registered(board, channel, name);
      && (forall c, i | At(board, c, i) :: At(after, c, i) && after[c][i] == board[c][i])
      && (forall c, i | At(after, c, i) && !At(board, c, i) ::
            after[c][i] == New(name) && c == channel && i == |after[c]| - 1)
  {
  }

  lemma AddedUnique(board: Board, channel: string, name: string)
    requires UniqueNames(board) && !HasName(board, name)
    ensures UniqueNames(Registered(board, channel, name))
  {
    RegisteredAt(board, channel, name);
    hide Registered;
  }

  lemma AddedMirrors(front: seq<Event>, e: Event, b: Breaker, now: int)
    requires e.Add? && !EverAdded(front, e.name)
    requires b == New(e.name) || Mirrors(front, b, now)
    ensures Mirrors(front + [e], b, now) && (Mirrors(front, b, now) ==> b.name != e.name)
  {
    assert (front + [e])[..|front|] == front;
  }

  lemma AddedIsNew(front: seq<Event>, e: Event, now: int)
    requires e.Add? && !EverAdded(front, e.name) && BoardMirrors(front, Exec(front), now)
    ensures !HasName(Exec(front), e.name)
  {
    hide Exec, Roster, UniqueNames, EverAdded;
  }

  lemma AddMirrors(front: seq<Event>, e: Event, now: int)
    requires e.Add? && !EverAdded(front, e.name) && BoardMirrors(front, Exec(front), now)
    ensures BoardMirrors(front + [e], Exec(front + [e]), now)
  {
    assert (front + [e])[..|front|] == front;
    var board, after := Exec(front), Exec(front + [e]);
    assert after == Registered(board, e.channel, e.name);
    hide Mirrors, Exec, Roster, UniqueNames, EverAdded, HasName, Registered;
    RegisteredAt(board, e.channel, e.name);
    forall channel, i | At(after, channel, i)
      ensures Mirrors(front + [e], after[channel][i], now)
    {
      AddedMirrors(front, e, after[channel][i], now);
    }
    AddedIsNew(front, e, now);
    AddedUnique(board, e.channel, e.name);
    RosterGrows(front, e);
  }

  lemma RosterGrows(front: seq<Event>, e: Event)
    requires e.Add?
    ensures forall channel ::
      Roster(front + [e], channel)
      == if channel == e.channel then Roster(front, channel) + [e.name] else Roster(front, channel)
  {
    assert (front + [e])[..|front|] == front;
  }

  lemma ChooseMirrors(front: seq<Event>, e: Event, now: int)
    requires e.Choose? && BoardMirrors(front, Exec(front), e.began)
    requires e.began <= now && forall i: nat :: e.began <= e.looks(i).at <= now
    ensures BoardMirrors(front + [e], Exec(front + [e]), now)
  {
    var events := front + [e];
    assert events[..|events| - 1] == front;
    var board, after := Exec(front), Exec(events);
    forall channel, i | At(after, channel, i)
      ensures At(board, channel, i)
      ensures Mirrors(events, after[channel][i], now)
      ensures after[channel][i].name == board[channel][i].name
    {
      assert At(board, channel, i);
      assert Mirrors(front, board[channel][i], e.began);
      assert after[channel][i] == board[channel][i] || after[channel][i] == Looked(board[channel][i], e.looks(i));
    }
  }

  lemma RecordMirrors(front: seq<Event>, e: Event, now: int)
    requires e.Record? && BoardMirrors(front, Exec(front), e.at) && e.at <= now
    ensures BoardMirrors(front + [e], Exec(front + [e]), now)
  {
    var events := front + [e];
    assert events[..|events| - 1] == front;
    var board, after := Exec(front), Exec(events);
    forall channel, i | At(after, channel, i)
      ensures At(board, channel, i)
      ensures Mirrors(events, after[channel][i], now)
      ensures after[channel][i].name == board[channel][i].name
    {
      assert At(board, channel, i);
      assert Mirrors(front, board[channel][i], e.at);
    }
  }

  /** Over any history: a candidate's failures are the trailing run of errors reported about it, and
      its circuit is closed if and only if that run is below the threshold. */
  lemma {:induction false} CircuitsMirrorLog(events: seq<Event>, now: int)
    requires InOrder(events, now) && FreshNames(events)
    ensures BoardMirrors(events, Exec(events), now)
  {
    if events != [] {
      var front, e := events[..|events| - 1], events[|events| - 1];
      assert events == front + [e];
      match e {
        case Add(_, _) =>
          CircuitsMirrorLog(front, now);
          AddMirrors(front, e, now);
        case Choose(_, _, began) =>
          CircuitsMirrorLog(front, began);
          ChooseMirrors(front, e, now);
        case Record(_, _, at) =>
          CircuitsMirrorLog(front, at);
          RecordMirrors(front, e, now);
      }
    }
  }

  // ---------- The choice is decided by the log ----------

  /** Fewer errors in a row than the threshold; or the last one a cooldown ago, and a good probe. */
  predicate Usable(events: seq<Event>, name: string, look: Look) {
    || Errors(events, name) < THRESHOLD
    || (look.at - LastError(events, name) >= COOLDOWN && look.healthy)
  }

  /** `Choose` returns the first registered candidate that the log of results makes usable, and
      fails only if there is none. */
  lemma ChoiceFromLog(events: seq<Event>, channel: string, looks: nat -> Look, began: int)
    requires InOrder(events, began) && FreshNames(events) && forall i: nat :: began <= looks(i).at
    ensures var roster := Roster(events, channel);
      match Choice(Exec(events), channel, looks)
      case Some(name) =>
        exists k :: 0 <= k < |roster| && name == roster[k] && Usable(events, name, looks(k))
                    && forall j | 0 <= j < k :: !Usable(events, roster[j], looks(j))
      case None => forall j | 0 <= j < |roster| :: !Usable(events, roster[j], looks(j))
  {
    CircuitsMirrorLog(events, began);
    var board := Exec(events);
    forall i | At(board, channel, i)
      ensures Passes(board[channel][i], looks(i)) <==> Usable(events, Roster(events, channel)[i], looks(i))
    {
      assert Mirrors(events, board[channel][i], began);
    }
    if channel in board {
      var k := FirstPassing(board[channel], looks, 0);
      assert forall j | 0 <= j < |board[channel]| :: At(board, channel, j);
    }
  }

  /** In numbers: the first candidate of a channel is chosen after at most two errors in a row; after
      three it is passed over for ten seconds from the last one, and from then on it is chosen if and
      only if it passes its probe. */
  lemma FirstCandidate(events: seq<Event>, channel: string, looks: nat -> Look, began: int)
    requires InOrder(events, began) && FreshNames(events) && forall i: nat :: began <= looks(i).at
    requires Roster(events, channel) != []
    ensures var name := Roster(events, channel)[0]; var choice := Choice(Exec(events), channel, looks);
      && (Errors(events, name) <= 2 ==> choice == Some(name))
      && (Errors(events, name) >= 3 && looks(0).at < LastError(events, name) + 10_000_000_000 ==> choice != Some(name))
      && (Errors(events, name) >= 3 && looks(0).at >= LastError(events, name) + 10_000_000_000 ==>
            (choice == Some(name) <==> looks(0).healthy))
  {
    ChoiceFromLog(events, channel, looks, began);
    var name := Roster(events, channel)[0];
    forall k | 0 < k < |Roster(events, channel)|
      ensures Roster(events, channel)[k] != name
    {
      RosterDistinct(events, channel, 0, k, began);
    }
  }

  lemma RosterDistinct(events: seq<Event>, channel: string, i: nat, j: nat, now: int)
    requires InOrder(events, now) && FreshNames(events) && i < j < |Roster(events, channel)|
    ensures Roster(events, channel)[i] != Roster(events, channel)[j]
  {
    CircuitsMirrorLog(events, now);
    var board := Exec(events);
    assert channel in board;
    assert At(board, channel, i) && At(board, channel, j);
  }

  // ---------- Why names must be unique ----------

  /** Of two candidates of one name whose circuits are open, a reported success leaves one open. */
  lemma DuplicateStaysOpen(before: Board, after: Board, c1: string, i1: int, c2: string, i2: int, at: int)
    requires At(before, c1, i1) && At(before, c2, i2) && (c1 != c2 || i1 != i2)
    requires before[c1][i1].name == before[c2][i2].name && before[c1][i1].state.Open? && before[c2][i2].state.Open?
    requires Recorded(before, after, before[c1][i1].name, true, at)
    ensures At(after, c1, i1) && At(after, c2, i2)
    ensures after[c1][i1].state.Open? || after[c2][i2].state.Open?
  {
  }

  /** A failure counts for every candidate of the name. */
  lemma FailureCounts(before: Board, after: Board, channel: string, i: int, name: string, at: int)
    requires At(before, channel, i) && before[channel][i].name == name && Recorded(before, after, name, false, at)
    ensures At(after, channel, i) && after[channel][i] == Reported(before[channel][i], false, at)
  {
  }

  /** Whatever the board, and whichever candidates the walks meet first: if two candidates have the
      same name, three failures and a success leave the circuit of one of them open, although no
      error trails in the log. */
  lemma DuplicateBreaksLog(boards: seq<Board>, times: seq<int>, c1: string, i1: int, c2: string, i2: int)
    requires |boards| == 5 && |times| == 4
    requires At(boards[0], c1, i1) && At(boards[0], c2, i2) && (c1 != c2 || i1 != i2)
    requires boards[0][c1][i1].name == boards[0][c2][i2].name
    requires forall k | 0 <= k < 4 :: Recorded(boards[k], boards[k + 1], boards[0][c1][i1].name, k == 3, times[k])
    ensures At(boards[4], c1, i1) && At(boards[4], c2, i2)
    ensures boards[4][c1][i1].state.Open? || boards[4][c2][i2].state.Open?
  {
    var name := boards[0][c1][i1].name;
    hide Recorded;
    FailureCounts(boards[0], boards[1], c1, i1, name, times[0]);
    FailureCounts(boards[0], boards[1], c2, i2, name, times[0]);
    FailureCounts(boards[1], boards[2], c1, i1, name, times[1]);
    FailureCounts(boards[1], boards[2], c2, i2, name, times[1]);
    FailureCounts(boards[2], boards[3], c1, i1, name, times[2]);
    FailureCounts(boards[2], boards[3], c2, i2, name, times[2]);
    DuplicateStaysOpen(boards[3], boards[4], c1, i1, c2, i2, times[3]);
  }
}
