/** The circuit breakers of internal/routing/router.go.

    A router keeps, per channel, candidates in the order of their registration. Times are in
    nanoseconds. */
module Routing {
  import opened Wrappers

  datatype Circuit = Closed | Open | HalfOpen

  const THRESHOLD := 3
  const COOLDOWN := 10_000_000_000

  datatype Breaker = Breaker(name: string, failures: nat, openedAt: int, state: Circuit)

  type Board = map<string, seq<Breaker>>

  /** What `Choose` meets at a candidate: the clock, and the outcome of a health probe. */
  datatype Look = Look(at: int, healthy: bool)

  function New(name: string): Breaker {
    Breaker(name, 0, 0, Closed)
  }

  /** An open circuit past its cooldown becomes half open. */
  function Looked(b: Breaker, look: Look): Breaker {
    if b.state.Open? && look.at - b.openedAt >= COOLDOWN then b.(state := HalfOpen) else b
  }

  predicate Passes(b: Breaker, look: Look) {
    var state := Looked(b, look).state;
    state.Closed? || (state.HalfOpen? && look.healthy)
  }

  function Reported(b: Breaker, ok: bool, at: int): Breaker {
    if ok then b.(failures := 0, state := Closed)
    else if b.failures + 1 >= THRESHOLD then b.(failures := b.failures + 1, state := Open, openedAt := at)
    else b.(failures := b.failures + 1)
  }

  /** The first candidate from `i` on that passes. */
  function FirstPassing(list: seq<Breaker>, looks: nat -> Look, i: nat): (k: nat)
    requires i <= |list|
    ensures i <= k <= |list| && (k < |list| ==> Passes(list[k], looks(k)))
    ensures forall j | i <= j < k :: !Passes(list[j], looks(j))
    decreases |list| - i
  {
    if i == |list| || Passes(list[i], looks(i)) then i else FirstPassing(list, looks, i + 1)
  }

  /** The candidates when the first `k` of them have been looked at. */
  function LookedUpTo(list: seq<Breaker>, looks: nat -> Look, k: nat): (r: seq<Breaker>)
    ensures |r| == |list|
    ensures forall i | 0 <= i < |list| :: r[i] == if i < k then Looked(list[i], looks(i)) else list[i]
  {
    seq(|list|, i requires 0 <= i < |list| => if i < k then Looked(list[i], looks(i)) else list[i])
  }

  /** `Choose` looks at candidates up to the first that passes. */
  function Visited(board: Board, channel: string, looks: nat -> Look): Board {
    if channel !in board then board
    else
      var list := board[channel];
      board[channel := LookedUpTo(list, looks, FirstPassing(list, looks, 0) + 1)]
  }

  function Choice(board: Board, channel: string, looks: nat -> Look): Option<string> {
    if channel !in board then None
    else
      var list := board[channel];
      var k := FirstPassing(list, looks, 0);
      if k < |list| then Some(list[k].name) else None
  }

  /** `Choose` touches only its channel, there no candidate after the chosen one, and of the others only
      circuits that were open for ten seconds, which become half open. */
  lemma VisitTouchesLittle(board: Board, channel: string, looks: nat -> Look, c: string, i: nat)
    requires At(board, c, i)
    ensures var after := Visited(board, channel, looks);
      && At(after, c, i)
      && (c != channel ==> after[c][i] == board[c][i])
      && (c == channel && (exists k :: 0 <= k < i && Passes(board[c][k], looks(k))) ==> after[c][i] == board[c][i])
      && (after[c][i] != board[c][i] ==>
            && board[c][i].state == Open && looks(i).at >= board[c][i].openedAt + 10_000_000_000
            && after[c][i] == board[c][i].(state := HalfOpen))
  {
  }

  function ReportedIn(list: seq<Breaker>, name: string, ok: bool, at: int): (r: seq<Breaker>)
    ensures |r| == |list|
    ensures forall i | 0 <= i < |list| :: r[i] == if list[i].name == name then Reported(list[i], ok, at) else list[i]
  {
    seq(|list|, i requires 0 <= i < |list| => if list[i].name == name then Reported(list[i], ok, at) else list[i])
  }

  /** None of that name is listed, so reporting about it changes nothing. */
  predicate Unnamed(list: seq<Breaker>, name: string, at: int) {
    (forall i | 0 <= i < |list| :: list[i].name != name) && ReportedIn(list, name, true, at) == list
  }

  /** One candidate of that name got a clean record. */
  predicate OneReset(list: seq<Breaker>, after: seq<Breaker>, name: string) {
    exists i :: 0 <= i < |list| && list[i].name == name && after == list[i := Reported(list[i], true, 0)]
  }

  function ReportedAll(board: Board, name: string, ok: bool, at: int): Board {
    map channel | channel in board :: ReportedIn(board[channel], name, ok, at)
  }

  /** A failure counts for every candidate of the name; a success resets one of them, whichever the
      walk over the channels meets first. */
  ghost predicate Recorded(before: Board, after: Board, name: string, ok: bool, at: int) {
    if ok then
      || (after == before && forall channel | channel in before :: Unnamed(before[channel], name, at))
      || exists channel, list ::
           channel in before && OneReset(before[channel], list, name) && after == before[channel := list]
    else
      after == ReportedAll(before, name, false, at)
  }

  lemma ResetWhereNamed(before: Board, name: string, at: int, channel: string, i: int)
    requires UniqueNames(before) && At(before, channel, i) && before[channel][i].name == name
    ensures var list := before[channel][i := Reported(before[channel][i], true, 0)];
      OneReset(before[channel], list, name) && ReportedAll(before, name, true, at) == before[channel := list]
  {
    var list := before[channel][i := Reported(before[channel][i], true, 0)];
    forall c | c in before
      ensures ReportedIn(before[c], name, true, at) == if c == channel then list else before[c]
    {
      assert forall j | 0 <= j < |before[c]| :: At(before, c, j);
    }
  }

  lemma NoneNamed(before: Board, name: string, at: int)
    requires !HasName(before, name)
    ensures forall c | c in before :: Unnamed(before[c], name, at)
    ensures ReportedAll(before, name, true, at) == before
  {
    assert forall c, j | c in before && 0 <= j < |before[c]| :: At(before, c, j);
  }

  /** With unique names, every candidate of the name is reported to, in whatever order. */
  lemma UniqueRecorded(before: Board, after: Board, name: string, ok: bool, at: int)
    requires UniqueNames(before)
    ensures Recorded(before, after, name, ok, at) <==> after == ReportedAll(before, name, ok, at)
  {
    if ok {
      forall channel, list | channel in before && OneReset(before[channel], list, name)
        ensures before[channel := list] == ReportedAll(before, name, true, at)
      {
        var i :| 0 <= i < |before[channel]| && before[channel][i].name == name
                 && list == before[channel][i := Reported(before[channel][i], true, 0)];
        assert At(before, channel, i);
        ResetWhereNamed(before, name, at, channel, i);
      }
      if HasName(before, name) {
        var channel, i :| At(before, channel, i) && before[channel][i].name == name;
        ResetWhereNamed(before, name, at, channel, i);
      } else {
        NoneNamed(before, name, at);
      }
      hide ReportedAll, OneReset, ReportedIn, Reported, UniqueNames;
    }
  }

  function Registered(board: Board, channel: string, name: string): Board {
    board[channel := (if channel in board then board[channel] else []) + [New(name)]]
  }

  predicate At(board: Board, channel: string, i: int) {
    channel in board && 0 <= i < |board[channel]|
  }

  ghost predicate UniqueNames(board: Board) {
    forall c1, i1, c2, i2 | At(board, c1, i1) && At(board, c2, i2) && board[c1][i1].name == board[c2][i2].name ::
      c1 == c2 && i1 == i2
  }

  ghost predicate HasName(board: Board, name: string) {
    exists channel, i :: At(board, channel, i) && board[channel][i].name == name
  }

  class Candidate {
    const name: string
    var failures: nat
    var openedAt: int
    var state: Circuit

    function View(): Breaker
      reads this
    {
      Breaker(name, failures, openedAt, state)
    }

    constructor (name: string)
      ensures this.name == name && View() == New(name)
    {
      this.name, failures, openedAt, state := name, 0, 0, Closed;
    }

    method Fail(at: int)
      modifies this
      ensures View() == Reported(old(View()), false, at)
    {
      failures := failures + 1;
      if failures >= THRESHOLD {
        state, openedAt := Open, at;
      }
    }

    method Reset()
      modifies this
      ensures forall at :: View() == Reported(old(View()), true, at)
    {
      failures, state := 0, Closed;
    }

    /** One turn of the loop of `Choose`. */
    method Look(look: Look) returns (passes: bool)
      modifies this
      ensures View() == Looked(old(View()), look) && passes == Passes(old(View()), look)
    {
      if state == Open && look.at - openedAt < COOLDOWN {
        return false;
      }
      if state == Open {
        state := HalfOpen;
      }
      if state == HalfOpen && !look.healthy {
        return false;
      }
      return true;
    }
  }

  ghost function Views(cs: seq<Candidate>): (r: seq<Breaker>)
    reads cs
    ensures |r| == |cs| && forall i | 0 <= i < |cs| :: r[i] == cs[i].View() && r[i].name == cs[i].name
  {
    if cs == [] then [] else Views(cs[..|cs| - 1]) + [cs[|cs| - 1].View()]
  }

  class Router {
    var providers: map<string, seq<Candidate>>

    ghost predicate Holds(channel: string, i: int)
      reads this
    {
      channel in providers && 0 <= i < |providers[channel]|
    }

    ghost function Repr(): set<Candidate>
      reads this
    {
      set channel, i | channel in providers && 0 <= i < |providers[channel]| :: providers[channel][i]
    }

    /** No candidate is listed twice. */
    ghost predicate Valid()
      reads this
    {
      forall c1, i1, c2, i2 | Holds(c1, i1) && Holds(c2, i2) && providers[c1][i1] == providers[c2][i2] ::
        c1 == c2 && i1 == i2
    }

    /** The lists are disjoint, and none repeats a candidate. */
    lemma Apart()
      requires Valid()
      ensures forall ch, i, j | ch in providers && 0 <= i < j < |providers[ch]| :: providers[ch][i] != providers[ch][j]
      ensures forall c1, c2, i | c1 in providers && c2 in providers && c1 != c2 && 0 <= i < |providers[c1]| ::
        providers[c1][i] !in providers[c2]
    {
      assert forall ch, i | ch in providers && 0 <= i < |providers[ch]| :: Holds(ch, i);
    }

    ghost function State(): (board: Board)
      reads this, Repr()
      ensures board.Keys == providers.Keys
      ensures forall ch | ch in providers :: |board[ch]| == |providers[ch]|
      ensures forall ch, i | ch in providers && 0 <= i < |providers[ch]| :: board[ch][i].name == providers[ch][i].name
    {
      map channel | channel in providers :: Views(providers[channel])
    }

    constructor ()
      ensures Valid() && State() == map[]
    {
      providers := map[];
    }

    method Append(channel: string, c: Candidate)
      requires Valid() && forall ch | ch in providers :: c !in providers[ch]
      modifies this
      ensures Valid()
      ensures providers
              == old(providers)[channel := (if channel in old(providers) then old(providers)[channel] else []) + [c]]
    {
      var list := if channel in providers then providers[channel] else [];
      providers := providers[channel := list + [c]];
    }

    method Add(channel: string, name: string)
      requires Valid()
      modifies this
      ensures Valid() && State() == Registered(old(State()), channel, name)
    {
      hide Valid, Views, Candidate.View;
      ghost var start, before := State(), providers;
      var c := new Candidate(name);
      forall ch | ch in before
        ensures Views(before[ch]) == start[ch]
      {
      }
      Append(channel, c);
      Extended(start, before, channel, c);
    }

    lemma Extended(start: Board, before: map<string, seq<Candidate>>, channel: string, c: Candidate)
      requires start == map ch | ch in before :: Views(before[ch])
      requires providers == before[channel := (if channel in before then before[channel] else []) + [c]]
      ensures State() == start[channel := (if channel in start then start[channel] else []) + [c.View()]]
    {
      hide Views;
      var list := if channel in before then before[channel] else [];
      assert Views(list + [c]) == Views(list) + [c.View()];
      assert Views([]) == [];
    }

    /** The loop of `Choose` over one channel's candidates. */
    method FirstOf(list: seq<Candidate>, looks: nat -> Look) returns (k: nat)
      requires forall i, j | 0 <= i < j < |list| :: list[i] != list[j]
      modifies list
      ensures k == FirstPassing(old(Views(list)), looks, 0)
      ensures Views(list) == LookedUpTo(old(Views(list)), looks, k + 1)
    {
      hide Views, Looked, Passes, LookedUpTo, Valid, Candidate.View;
      ghost var start := Views(list);
      k := 0;
      while k < |list|
        invariant 0 <= k <= |list|
        invariant Views(list) == LookedUpTo(start, looks, k)
        invariant FirstPassing(start, looks, 0) == FirstPassing(start, looks, k)
      {
        var passes := list[k].Look(looks(k));
        assert Views(list) == LookedUpTo(start, looks, k + 1);
        if passes {
          return;
        }
        k := k + 1;
      }
      assert LookedUpTo(start, looks, k) == LookedUpTo(start, looks, k + 1);
    }

    method ChooseOn(channel: string, looks: nat -> Look) returns (k: nat)
      requires Valid() && channel in providers
      modifies providers[channel]
      ensures k == FirstPassing(old(State())[channel], looks, 0)
      ensures State() == old(State())[channel := LookedUpTo(old(State())[channel], looks, k + 1)]
    {
      hide Views, FirstPassing, LookedUpTo, Valid, Candidate.View;
      Apart();
      k := FirstOf(providers[channel], looks);
    }

    method Choose(channel: string, looks: nat -> Look) returns (chosen: Option<string>)
      requires Valid()
      modifies Repr()
      ensures Valid() && State() == Visited(old(State()), channel, looks)
      ensures chosen == Choice(old(State()), channel, looks)
    {
      hide State, Views, FirstPassing, LookedUpTo, Candidate.View;
      if channel !in providers {
        return None;
      }
      var k := ChooseOn(channel, looks);
      return if k < |providers[channel]| then Some(providers[channel][k].name) else None;
    }

    /** The inner loop of `Record`: a success ends it at the first candidate of that name. */
    method ReportIn(list: seq<Candidate>, name: string, ok: bool, at: int) returns (done: bool)
      requires forall i, j | 0 <= i < j < |list| :: list[i] != list[j]
      modifies list
      ensures done ==> ok && OneReset(old(Views(list)), Views(list), name)
      ensures !done ==> Views(list) == ReportedIn(old(Views(list)), name, ok, at)
      ensures ok && !done ==> Unnamed(old(Views(list)), name, at)
    {
      hide Views, Reported, ReportedIn, Recorded, Candidate.View;
      ghost var start := Views(list);
      var i := 0;
      while i < |list|
        invariant 0 <= i <= |list|
        invariant forall j | 0 <= j < |list| ::
          Views(list)[j] == if j < i && start[j].name == name then Reported(start[j], ok, at) else start[j]
        invariant ok ==> forall j | 0 <= j < i :: start[j].name != name
      {
        if list[i].name == name {
          if ok {
            list[i].Reset();
            assert Views(list) == start[i := Reported(start[i], true, at)];
            return true;
          }
          list[i].Fail(at);
        }
        i := i + 1;
      }
      assert Views(list) == ReportedIn(start, name, ok, at);
      return false;
    }

    method ReportOn(channel: string, name: string, ok: bool, at: int) returns (done: bool)
      requires Valid() && channel in providers
      modifies providers[channel]
      ensures State() == old(State())[channel := State()[channel]]
      ensures done ==> ok && OneReset(old(State())[channel], State()[channel], name)
      ensures !done ==> State()[channel] == ReportedIn(old(State())[channel], name, ok, at)
      ensures ok && !done ==> Unnamed(old(State())[channel], name, at) && State() == old(State())
    {
      hide Views, ReportedIn, OneReset, Valid, Candidate.View;
      Apart();
      done := ReportIn(providers[channel], name, ok, at);
    }

    /** The channels are walked in whatever order the map yields them. */
    method Record(name: string, ok: bool, at: int)
      requires Valid()
      modifies Repr()
      ensures Valid() && Recorded(old(State()), State(), name, ok, at)
    {
      hide State, Views, ReportedIn, OneReset, Unnamed, Valid, Candidate.View;
      ghost var start := State();
      var rest := providers.Keys;
      while rest != {}
        invariant Valid() && rest <= providers.Keys && State().Keys == start.Keys == providers.Keys
        invariant ok ==> State() == start && forall ch | ch in providers && ch !in rest :: Unnamed(start[ch], name, at)
        invariant !ok ==>
          forall ch | ch in start ::
            State()[ch] == if ch in rest then start[ch] else ReportedIn(start[ch], name, ok, at)
        decreases |rest|
      {
        var ch :| ch in rest;
        rest := rest - {ch};
        var done := ReportOn(ch, name, ok, at);
        if done {
          return;
        }
      }
    }
  }
}
