/** Transition events derived from snapshots, and bounded subscriber queues (ami_event_listener.py). */
module Events {
  import opened Base
  import opened Models

  datatype Event =
    | Snapshot(state: NodeState)
    | RxKeyed(value: bool)
    | TxKeyed(value: bool)
    | Connected(name: string)
    | Disconnected(name: string)

  /** What the listener remembers between polls; None after an unknown gap. */
  datatype Memory = Memory(known: Option<set<string>>, rx: Option<bool>, tx: Option<bool>)

  const FORGOTTEN := Memory(None, None, None)

  const CAPACITY := 200

  function Names(links: seq<DirectLink>): set<string> {
    set link | link in links :: link.node
  }

  function Current(s: NodeState): set<string> {
    if s.directLinks.Some? then Names(s.directLinks.value) else {}
  }

  /** Some direct link of the state goes to that node. */
  ghost predicate HasLink(s: NodeState, name: string) {
    s.directLinks.Some? && exists i :: 0 <= i < |s.directLinks.value| && s.directLinks.value[i].node == name
  }

  lemma CurrentIsLinked(s: NodeState, name: string)
    ensures name in Current(s) <==> HasLink(s, name)
  {
  }

  // ---- subscriber queues ------------------------------------------------------------------------

  /** The newest 200 of these events, or all of them if they are no more. */
  function Latest(events: seq<Event>): seq<Event> {
    if |events| <= 200 then events else events[|events| - 200..]
  }

  /** What had to be dropped early would have had to be dropped anyway. */
  lemma LatestAbsorbs(a: seq<Event>, b: seq<Event>)
    ensures Latest(Latest(a) + b) == Latest(a + b)
  {
    var kept := Latest(a);
    assert a == a[..|a| - |kept|] + kept;
    if |kept + b| >= 200 {
      assert (a + b)[|a + b| - 200..] == (kept + b)[|kept + b| - 200..];
    }
  }

  ghost predicate IsSuffix(items: seq<Event>, log: seq<Event>) {
    |items| <= |log| && items == log[|log| - |items|..]
  }

  class Queue {
    var items: seq<Event>
    /** How much had been broadcast when this subscriber joined. */
    ghost const joined: nat

    constructor (ghost joined: nat)
      ensures items == [] && this.joined == joined
    {
      items := [];
      this.joined := joined;
    }

    method Put(e: Event)
      modifies this
      ensures items == (if |old(items)| < 200 then old(items) else old(items)[1..]) + [e]
    {
      if |items| >= CAPACITY {
        items := items[1..];
      }
      items := items + [e];
    }

    method Get() returns (e: Event)
      requires items != []
      modifies this
      ensures e == old(items)[0] && items == old(items)[1..]
    {
      e := items[0];
      items := items[1..];
    }
  }

  /** What a queue may hold: a bounded, unbroken tail of everything broadcast since its subscriber joined. */
  ghost predicate Delivers(items: seq<Event>, joined: nat, log: seq<Event>) {
    |items| <= CAPACITY && joined <= |log| && IsSuffix(items, log[joined..])
  }

  lemma LatestDropsOne(items: seq<Event>, e: Event)
    requires |items| <= 200
    ensures Latest(items + [e]) == (if |items| < 200 then items else items[1..]) + [e]
  {
  }

  /** Putting an event keeps a queue such a tail: it drops the oldest event of a full queue, and nothing else. */
  lemma PushDelivers(items: seq<Event>, joined: nat, log: seq<Event>, e: Event)
    requires Delivers(items, joined, log)
    ensures Latest(items + [e]) == (if |items| < 200 then items else items[1..]) + [e]
    ensures Delivers(Latest(items + [e]), joined, log + [e]) && Last(Latest(items + [e])) == e
  {
    LatestDropsOne(items, e);
    hide Latest;
    var since := log[joined..];
    assert (log + [e])[joined..] == since + [e];
    var kept := if |items| < 200 then items else items[1..];
    assert kept == since[|since| - |kept|..];
    assert kept + [e] == (since + [e])[|since| - |kept|..];
  }

  /** Each queue after these events were put to it, whatever was in it and however many they are. */
  function Extended(contents: map<Queue, seq<Event>>, events: seq<Event>): map<Queue, seq<Event>> {
    map q | q in contents :: Latest(contents[q] + events)
  }

  lemma ExtendedTwice(contents: map<Queue, seq<Event>>, a: seq<Event>, b: seq<Event>)
    ensures Extended(Extended(contents, a), b) == Extended(contents, a + b)
  {
    hide Latest;
    forall q | q in contents ensures Latest(Latest(contents[q] + a) + b) == Latest(contents[q] + (a + b)) {
      LatestAbsorbs(contents[q] + a, b);
      assert contents[q] + a + b == contents[q] + (a + b);
    }
  }

  /** Taking the oldest event leaves a tail of the same broadcast. */
  lemma GetDelivers(items: seq<Event>, joined: nat, log: seq<Event>)
    requires Delivers(items, joined, log) && items != []
    ensures Delivers(items[1..], joined, log)
  {
    var since := log[joined..];
    assert items[1..] == since[|since| - |items[1..]|..];
  }

  // ---- one poll ---------------------------------------------------------------------------------

  ghost predicate Enumerates(names: seq<string>, s: set<string>) {
    && (forall n :: n in names <==> n in s)
    && forall i, j :: 0 <= i < j < |names| ==> names[i] != names[j]
  }

  function Connections(names: seq<string>): seq<Event> {
    seq(|names|, i requires 0 <= i < |names| => Connected(names[i]))
  }

  function Disconnections(names: seq<string>): seq<Event> {
    seq(|names|, i requires 0 <= i < |names| => Disconnected(names[i]))
  }

  function KeyEvents(before: Option<bool>, now: Option<bool>, rx: bool): seq<Event> {
    if now == before || now.None? then [] else [if rx then RxKeyed(now.value) else TxKeyed(now.value)]
  }

  function Steady(pre: Memory, s: NodeState): seq<Event> {
    [Snapshot(s)] + KeyEvents(pre.rx, s.rxKeyed, true) + KeyEvents(pre.tx, s.txKeyed, false)
  }

  /** The events of one poll; link changes come in no particular order within each kind. */
  ghost predicate Polled(pre: Memory, s: NodeState, events: seq<Event>, post: Memory) {
    if !s.complete then events == [Snapshot(s)] && post == FORGOTTEN
    else
      && post == Memory(Some(Current(s)), s.rxKeyed, s.txKeyed)
      && if pre.known.None? then events == Steady(pre, s)
         else exists added, removed ::
           && Enumerates(added, Current(s) - pre.known.value) && Enumerates(removed, pre.known.value - Current(s))
           && events == Steady(pre, s) + Connections(added) + Disconnections(removed)
  }

  /** What one poll tells its subscribers, by the state's own links and keys and what was remembered before. */
  ghost predicate Tells(pre: Memory, s: NodeState, events: seq<Event>) {
    && events != [] && events[0] == Snapshot(s) && (forall i :: 0 < i < |events| ==> !events[i].Snapshot?)
    && KeyValues(events, true) == (if s.complete && s.rxKeyed != pre.rx then [s.rxKeyed == Some(true)] else [])
    && KeyValues(events, false) == (if s.complete && s.txKeyed != pre.tx then [s.txKeyed == Some(true)] else [])
    && (forall name ::
          Count(events, Connected(name)) ==
            if s.complete && pre.known.Some? && name !in pre.known.value && HasLink(s, name) then 1 else 0)
    && (forall name ::
          Count(events, Disconnected(name)) ==
            if s.complete && pre.known.Some? && name in pre.known.value && !HasLink(s, name) then 1 else 0)
  }

  /** What is remembered after it: the names of the state's links and its keys, or nothing. */
  ghost predicate Keeps(post: Memory, s: NodeState) {
    if !s.complete then post.known.None? && post.rx.None? && post.tx.None?
    else
      && post.known.Some? && (forall name :: name in post.known.value <==> HasLink(s, name))
      && post.rx == s.rxKeyed && post.tx == s.txKeyed
  }

  class Listener {
    var queues: set<Queue>
    var known: Option<set<string>>
    var rx: Option<bool>
    var tx: Option<bool>
    /** Everything ever broadcast. */
    ghost var log: seq<Event>

    ghost predicate Valid()
      reads this`queues, this`log, queues
    {
      forall q :: q in queues ==> Delivers(q.items, q.joined, log)
    }

    ghost function Remembered(): Memory
      reads this
    {
      Memory(known, rx, tx)
    }

    /** What each subscriber could read now. */
    ghost function Contents(): map<Queue, seq<Event>>
      reads this`queues, queues
    {
      map q | q in queues :: q.items
    }

    constructor ()
      ensures Valid() && queues == {} && Remembered() == FORGOTTEN && log == []
    {
      queues, known, rx, tx, log := {}, None, None, None, [];
    }

    method Subscribe() returns (q: Queue)
      requires Valid()
      modifies this
      ensures Valid() && fresh(q) && q.items == [] && q.joined == |log|
      ensures Contents() == old(Contents())[q := []] && log == old(log) && Remembered() == old(Remembered())
    {
      q := new Queue(|log|);
      queues := queues + {q};
    }

    method Unsubscribe(q: Queue)
      requires Valid()
      modifies this
      ensures Valid() && Contents() == old(Contents()) - {q}
      ensures log == old(log) && Remembered() == old(Remembered())
    {
      queues := queues - {q};
    }

    /** Every current subscriber gets the event as its newest; nobody else is touched. */
    method Broadcast(e: Event)
      requires Valid()
      modifies this`log, queues
      ensures Valid() && log == old(log) + [e] && Contents() == Extended(old(Contents()), [e])
    {
      var todo := queues;
      while todo != {}
        invariant todo <= queues && log == old(log)
        invariant forall q :: q in todo ==> q.items == old(q.items)
        invariant forall q :: q in queues - todo ==> q.items == Latest(old(q.items) + [e])
        decreases todo
      {
        var q :| q in todo;
        q.Put(e);
        PushDelivers(old(q.items), q.joined, old(log), e);
        todo := todo - {q};
      }
      log := log + [e];
      forall q | q in queues ensures Delivers(q.items, q.joined, log) {
        PushDelivers(old(q.items), q.joined, old(log), e);
      }
    }

    /** Emits Connected or Disconnected for each name of a set, in whatever order the set yields them. */
    method Announce(names: set<string>, joining: bool) returns (ghost order: seq<string>)
      requires Valid()
      modifies this`log, queues
      ensures Valid() && Enumerates(order, names)
      ensures var events := if joining then Connections(order) else Disconnections(order);
        log == old(log) + events && Contents() == Extended(old(Contents()), events)
    {
      hide Valid, Contents, Extended;
      order := [];
      var todo := names;
      ExtendedByNone();
      while todo != {}
        invariant Valid() && todo <= names && Enumerates(order, names - todo)
        invariant var events := if joining then Connections(order) else Disconnections(order);
          log == old(log) + events && Contents() == Extended(old(Contents()), events)
        decreases todo
      {
        var name :| name in todo;
        ghost var told := if joining then Connections(order) else Disconnections(order);
        Broadcast(LinkEvent(name, joining));
        ExtendedTwice(old(Contents()), told, [LinkEvent(name, joining)]);
        order := order + [name];
        todo := todo - {name};
        assert names - todo == (names - (todo + {name})) + {name};
        assert told + [LinkEvent(name, joining)] == if joining then Connections(order) else Disconnections(order);
      }
    }

    lemma ExtendedByNone()
      requires Valid()
      ensures Contents() == Extended(Contents(), [])
    {
      forall q | q in queues ensures Latest(q.items + []) == q.items {
        assert Delivers(q.items, q.joined, log) && q.items + [] == q.items;
      }
    }

    /** Broadcasts a key-state change and remembers the new value. */
    method Track(now: Option<bool>, before: Option<bool>, receiver: bool)
      requires Valid() && now.Some?
      modifies this`log, queues
      ensures Valid() && log == old(log) + KeyEvents(before, now, receiver)
      ensures Contents() == Extended(old(Contents()), KeyEvents(before, now, receiver))
    {
      hide Valid, Contents, Extended;
      ExtendedByNone();
      if now != before {
        Broadcast(if receiver then RxKeyed(now.value) else TxKeyed(now.value));
      }
    }

    /** The two loops over the names that came and the names that went. */
    method Compare(current: set<string>) returns (ghost added: seq<string>, ghost removed: seq<string>)
      requires Valid() && known.Some?
      modifies this`log, queues
      ensures Valid() && Enumerates(added, current - known.value) && Enumerates(removed, known.value - current)
      ensures log == old(log) + (Connections(added) + Disconnections(removed))
      ensures Contents() == Extended(old(Contents()), Connections(added) + Disconnections(removed))
    {
      hide Valid, Contents, Extended, Enumerates, Connections, Disconnections;
      added := Announce(current - known.value, true);
      removed := Announce(known.value - current, false);
      ExtendedTwice(old(Contents()), Connections(added), Disconnections(removed));
    }

    /** One snapshot: always published; its differences from the remembered one published as transitions. */
    method PollOnce(state: NodeState)
      requires Valid() && Evident(state)
      modifies this`log, this`known, this`rx, this`tx, queues
      ensures Valid() && old(log) <= log
      ensures Polled(old(Remembered()), state, log[|old(log)|..], Remembered())
      ensures Tells(old(Remembered()), state, log[|old(log)|..]) && Keeps(Remembered(), state)
      ensures Contents() == Extended(old(Contents()), log[|old(log)|..])
    {
      hide Valid, Contents, Evident, Enumerates, Extended, Tells, Keeps, Current, Polled, KeyEvents, Connections,
        Disconnections;
      ghost var pre, all := Remembered(), Contents();
      KnownWhenComplete(state);
      Broadcast(Snapshot(state));
      ghost var told: seq<Event> := [Snapshot(state)];
      if !state.complete {
        known, rx, tx := None, None, None;
        assert log[|old(log)|..] == told;
        PollsUnknown(pre, state);
        PollTells(pre, state, told, FORGOTTEN);
        return;
      }
      Track(state.rxKeyed, rx, true);
      ExtendedTwice(all, told, KeyEvents(pre.rx, state.rxKeyed, true));
      rx, told := state.rxKeyed, told + KeyEvents(pre.rx, state.rxKeyed, true);
      Track(state.txKeyed, tx, false);
      ExtendedTwice(all, told, KeyEvents(pre.tx, state.txKeyed, false));
      tx, told := state.txKeyed, told + KeyEvents(pre.tx, state.txKeyed, false);
      assert told == Steady(pre, state);
      hide Steady, Names;
      var current := Names(state.directLinks.value);
      ghost var added: seq<string>, removed: seq<string> := [], [];
      if known.Some? {
        added, removed := Compare(current);
        ExtendedTwice(all, told, Connections(added) + Disconnections(removed));
        told := told + (Connections(added) + Disconnections(removed));
      }
      known := Some(current);
      PollsComplete(pre, state, added, removed);
      assert log[|old(log)|..] == told;
      PollTells(pre, state, told, Remembered());
    }
  }

  lemma KnownWhenComplete(s: NodeState)
    requires Evident(s)
    ensures s.complete ==> s.directLinks.Some? && s.rxKeyed.Some? && s.txKeyed.Some?
  {
  }

  lemma PollsUnknown(pre: Memory, s: NodeState)
    requires !s.complete
    ensures Polled(pre, s, [Snapshot(s)], FORGOTTEN)
  {
  }

  lemma PollsComplete(pre: Memory, s: NodeState, added: seq<string>, removed: seq<string>)
    requires s.complete && s.directLinks.Some?
    requires pre.known.Some? ==>
      var current := Names(s.directLinks.value);
      Enumerates(added, current - pre.known.value) && Enumerates(removed, pre.known.value - current)
    ensures
      var post := Memory(Some(Names(s.directLinks.value)), s.rxKeyed, s.txKeyed);
      if pre.known.None? then Polled(pre, s, Steady(pre, s), post)
      else Polled(pre, s, Steady(pre, s) + (Connections(added) + Disconnections(removed)), post)
  {
    hide Enumerates, Connections, Disconnections, KeyEvents, Steady;
    assert Steady(pre, s) + (Connections(added) + Disconnections(removed))
      == Steady(pre, s) + Connections(added) + Disconnections(removed);
  }

  /** A subscriber that has not caught up holds the newest event. */
  lemma NewestIsHeld(items: seq<Event>, joined: nat, log: seq<Event>)
    requires Delivers(items, joined, log) && items != []
    ensures log != [] && Last(items) == Last(log)
  {
    var since := log[joined..];
    assert items[|items| - 1] == since[|since| - 1];
  }

  // ---- replay -----------------------------------------------------------------------------------

  /** The polls of one stretch of time: states seen, events emitted in all, and memory before and after. */
  ghost predicate Run(pre: Memory, states: seq<NodeState>, events: seq<Event>, post: Memory)
    decreases |states|
  {
    if states == [] then events == [] && post == pre
    else exists cut: nat, mid ::
      cut <= |events| && Polled(pre, states[0], events[..cut], mid) && Run(mid, states[1..], events[cut..], post)
  }

  function Fold(links: set<string>, events: seq<Event>): set<string>
    decreases |events|
  {
    if events == [] then links
    else Fold(match events[0]
              case Connected(name) => links + {name}
              case Disconnected(name) => links - {name}
              case _ => links, events[1..])
  }

  /** Each link event changes something: nothing connects twice or disconnects while absent. */
  ghost predicate Effective(links: set<string>, events: seq<Event>)
    decreases |events|
  {
    events == [] ||
      (match events[0]
       case Connected(name) => name !in links && Effective(links + {name}, events[1..])
       case Disconnected(name) => name in links && Effective(links - {name}, events[1..])
       case _ => Effective(links, events[1..]))
  }

  lemma {:induction false} FoldConcatenates(links: set<string>, a: seq<Event>, b: seq<Event>)
    ensures Fold(links, a + b) == Fold(Fold(links, a), b)
    ensures Effective(links, a + b) <==> Effective(links, a) && Effective(Fold(links, a), b)
    decreases |a|
  {
    if a == [] {
      assert a + b == b;
    } else {
      var next := match a[0]
        case Connected(name) => links + {name}
        case Disconnected(name) => links - {name}
        case _ => links;
      assert (a + b)[1..] == a[1..] + b;
      FoldConcatenates(next, a[1..], b);
    }
  }

  lemma {:induction false} FoldConnections(links: set<string>, names: seq<string>)
    requires forall i, j :: 0 <= i < j < |names| ==> names[i] != names[j]
    ensures Fold(links, Connections(names)) == links + (set n | n in names)
    ensures (forall n :: n in names ==> n !in links) ==> Effective(links, Connections(names))
    decreases |names|
  {
    if names != [] {
      assert Connections(names)[1..] == Connections(names[1..]);
      FoldConnections(links + {names[0]}, names[1..]);
      assert (set n | n in names) == {names[0]} + (set n | n in names[1..]);
    }
  }

  lemma {:induction false} FoldDisconnections(links: set<string>, names: seq<string>)
    requires forall i, j :: 0 <= i < j < |names| ==> names[i] != names[j]
    ensures Fold(links, Disconnections(names)) == links - (set n | n in names)
    ensures (forall n :: n in names ==> n in links) ==> Effective(links, Disconnections(names))
    decreases |names|
  {
    if names != [] {
      assert Disconnections(names)[1..] == Disconnections(names[1..]);
      FoldDisconnections(links - {names[0]}, names[1..]);
      assert (set n | n in names) == {names[0]} + (set n | n in names[1..]);
    }
  }

  lemma SteadyFolds(links: set<string>, pre: Memory, s: NodeState)
    ensures Fold(links, Steady(pre, s)) == links && Effective(links, Steady(pre, s))
  {
    var a, b, c: seq<Event> := [Snapshot(s)], KeyEvents(pre.rx, s.rxKeyed, true), KeyEvents(pre.tx, s.txKeyed, false);
    FoldConcatenates(links, a + b, c);
    FoldConcatenates(links, a, b);
  }

  /** One poll after a complete one: its events turn the remembered links into the current ones, none of them idle. */
  lemma PollFolds(pre: Memory, s: NodeState, events: seq<Event>, post: Memory)
    requires Polled(pre, s, events, post) && s.complete && pre.known.Some?
    ensures Fold(pre.known.value, events) == Current(s) && Effective(pre.known.value, events)
  {
    hide Fold, Effective, Steady, Current;
    var base := pre.known.value;
    var added, removed :| Enumerates(added, Current(s) - base) && Enumerates(removed, base - Current(s))
      && events == Steady(pre, s) + Connections(added) + Disconnections(removed);
    FoldConcatenates(base, Steady(pre, s) + Connections(added), Disconnections(removed));
    FoldConcatenates(base, Steady(pre, s), Connections(added));
    SteadyFolds(base, pre, s);
    FoldConnections(base, added);
    FoldDisconnections(base + (set n | n in added), removed);
  }

  lemma EmptyRun(pre: Memory, events: seq<Event>, post: Memory)
    requires Run(pre, [], events, post) && pre.known.Some?
    ensures post == pre && Fold(pre.known.value, events) == pre.known.value && Effective(pre.known.value, events)
  {
  }

  lemma FirstPoll(pre: Memory, states: seq<NodeState>, events: seq<Event>, post: Memory) returns (cut: nat, mid: Memory)
    requires Run(pre, states, events, post) && states != []
    ensures cut <= |events| && Polled(pre, states[0], events[..cut], mid) && Run(mid, states[1..], events[cut..], post)
    ensures states[0].complete ==> mid.known == Some(Current(states[0]))
  {
    cut, mid :| cut <= |events| && Polled(pre, states[0], events[..cut], mid)
      && Run(mid, states[1..], events[cut..], post);
  }

  /**
    Replay: over any stretch of complete snapshots, folding the emitted link events over the links at its start
    gives exactly the links of its last snapshot, and no event is idle.
   */
  lemma {:induction false} ReplayIsExact(pre: Memory, states: seq<NodeState>, events: seq<Event>, post: Memory)
    requires Run(pre, states, events, post) && pre.known.Some?
    requires forall i :: 0 <= i < |states| ==> states[i].complete
    ensures post.known == Some(Fold(pre.known.value, events)) && Effective(pre.known.value, events)
    ensures states != [] ==> post.known == Some(Current(Last(states)))
    ensures states != [] ==> forall name :: name in Fold(pre.known.value, events) <==> HasLink(Last(states), name)
    decreases |states|
  {
    hide Fold, Effective, Current, Polled, Run, HasLink;
    if states == [] {
      EmptyRun(pre, events, post);
    } else {
      var cut, mid := FirstPoll(pre, states, events, post);
      PollFolds(pre, states[0], events[..cut], mid);
      ReplayIsExact(mid, states[1..], events[cut..], post);
      FoldConcatenates(pre.known.value, events[..cut], events[cut..]);
      assert events == events[..cut] + events[cut..];
      forall name ensures name in Current(Last(states)) <==> HasLink(Last(states), name) {
        CurrentIsLinked(Last(states), name);
      }
    }
  }

  // ---- receiver and transmitter events ----------------------------------------------------------

  /** The values of the receiver or of the transmitter events, in order. */
  function KeyValues(events: seq<Event>, rx: bool): seq<bool> {
    if events == [] then []
    else
      (match events[0]
       case RxKeyed(value) => if rx then [value] else []
       case TxKeyed(value) => if rx then [] else [value]
       case _ => []) + KeyValues(events[1..], rx)
  }

  function Key(s: NodeState, rx: bool): Option<bool> {
    if rx then s.rxKeyed else s.txKeyed
  }

  lemma {:induction false} KeysConcatenate(a: seq<Event>, b: seq<Event>, rx: bool)
    ensures KeyValues(a + b, rx) == KeyValues(a, rx) + KeyValues(b, rx)
    decreases |a|
  {
    if a == [] {
      assert a + b == b;
    } else {
      assert (a + b)[1..] == a[1..] + b;
      KeysConcatenate(a[1..], b, rx);
    }
  }

  lemma {:induction false} LinkEventsCarryNoKeys(names: seq<string>, rx: bool)
    ensures KeyValues(Connections(names), rx) == KeyValues(Disconnections(names), rx) == []
    decreases |names|
  {
    if names != [] {
      LinkEventsCarryNoKeys(names[1..], rx);
      assert Connections(names)[1..] == Connections(names[1..]);
      assert Disconnections(names)[1..] == Disconnections(names[1..]);
    }
  }

  lemma KeyEventValues(before: Option<bool>, now: Option<bool>, receiver: bool, rx: bool)
    ensures KeyValues(KeyEvents(before, now, receiver), rx) ==
      if receiver != rx || now == before || now.None? then [] else [now.value]
  {
    if KeyEvents(before, now, receiver) != [] {
      assert KeyEvents(before, now, receiver)[1..] == [];
    }
  }

  lemma SteadyKeys(pre: Memory, s: NodeState, rx: bool)
    ensures KeyValues(Steady(pre, s), rx) == KeyValues(KeyEvents(if rx then pre.rx else pre.tx, Key(s, rx), rx), rx)
  {
    var a, b, c: seq<Event> := [Snapshot(s)], KeyEvents(pre.rx, s.rxKeyed, true), KeyEvents(pre.tx, s.txKeyed, false);
    KeyEventValues(pre.rx, s.rxKeyed, true, rx);
    KeyEventValues(pre.tx, s.txKeyed, false, rx);
    KeysConcatenate(a + b, c, rx);
    KeysConcatenate(a, b, rx);
  }

  /** What the listener remembers of a state: everything it compares with, or nothing. */
  function Remember(s: NodeState): Memory {
    if s.complete then Memory(Some(Current(s)), s.rxKeyed, s.txKeyed) else FORGOTTEN
  }

  /** A complete state whose key differs from the state directly before it, or that follows an unknown one. */
  predicate Announces(before: NodeState, now: NodeState, rx: bool) {
    now.complete && Key(now, rx).Some? && (!before.complete || Key(before, rx) != Key(now, rx))
  }

  /** A complete state whose key differs from a complete one directly before it: a change that was seen to happen. */
  predicate Turns(before: NodeState, now: NodeState, rx: bool) {
    before.complete && Announces(before, now, rx)
  }

  function Announced(before: NodeState, states: seq<NodeState>, rx: bool): seq<bool>
    decreases |states|
  {
    if states == [] then []
    else
      var first := if Announces(before, states[0], rx) then [Key(states[0], rx).value] else [];
      first + Announced(states[0], states[1..], rx)
  }

  function Turned(before: NodeState, states: seq<NodeState>, rx: bool): seq<bool>
    decreases |states|
  {
    if states == [] then []
    else
      var first := if Turns(before, states[0], rx) then [Key(states[0], rx).value] else [];
      first + Turned(states[0], states[1..], rx)
  }

  /** A poll's key events: the new value if it is another than the remembered one. */
  lemma PollKeys(pre: Memory, s: NodeState, events: seq<Event>, post: Memory, rx: bool)
    requires Polled(pre, s, events, post)
    ensures KeyValues(events, rx) ==
      if s.complete && Key(s, rx).Some? && Key(s, rx) != (if rx then pre.rx else pre.tx) then [Key(s, rx).value] else []
  {
    hide Steady, Current;
    SteadyKeys(pre, s, rx);
    KeyEventValues(if rx then pre.rx else pre.tx, Key(s, rx), rx, rx);
    if s.complete && pre.known.Some? {
      hide KeyValues;
      var base := pre.known.value;
      var added, removed :| Enumerates(added, Current(s) - base) && Enumerates(removed, base - Current(s))
        && events == Steady(pre, s) + Connections(added) + Disconnections(removed);
      KeysConcatenate(Steady(pre, s) + Connections(added), Disconnections(removed), rx);
      KeysConcatenate(Steady(pre, s), Connections(added), rx);
      LinkEventsCarryNoKeys(added, rx);
      LinkEventsCarryNoKeys(removed, rx);
    }
  }

  lemma PollRemembers(pre: Memory, s: NodeState, events: seq<Event>, post: Memory)
    requires Polled(pre, s, events, post)
    ensures post == Remember(s)
  {
    hide Steady, Current, Enumerates;
  }

  /**
    Over any stretch of snapshots, with gaps anywhere, the key events are exactly these: the value of each complete
    snapshot that directly follows an unknown one or one with another value.
   */
  lemma {:induction false} KeyEventsAreExact(before: NodeState, states: seq<NodeState>, events: seq<Event>,
      post: Memory, rx: bool)
    requires Run(Remember(before), states, events, post)
    ensures KeyValues(events, rx) == Announced(before, states, rx)
    decreases |states|
  {
    hide Polled, Remember, Announces, KeyValues;
    if states == [] {
      NoKeys(rx);
    } else {
      var cut, mid := FirstPoll(Remember(before), states, events, post);
      RememberedKey(before, states[0], rx);
      PollKeys(Remember(before), states[0], events[..cut], mid, rx);
      PollRemembers(Remember(before), states[0], events[..cut], mid);
      KeyEventsAreExact(states[0], states[1..], events[cut..], post, rx);
      KeysConcatenate(events[..cut], events[cut..], rx);
      assert events == events[..cut] + events[cut..];
    }
  }

  lemma RememberedKey(before: NodeState, now: NodeState, rx: bool)
    ensures var known := if rx then Remember(before).rx else Remember(before).tx;
      Announces(before, now, rx) <==> now.complete && Key(now, rx).Some? && Key(now, rx) != known
  {
  }

  lemma NoKeys(rx: bool)
    ensures KeyValues([], rx) == []
  {
  }

  /** Where observation resumes: a complete snapshot directly after an unknown one. */
  predicate Resumes(before: NodeState, states: seq<NodeState>)
    decreases |states|
  {
    states != [] && ((!before.complete && states[0].complete) || Resumes(states[0], states[1..]))
  }

  lemma {:induction false} ResumingRepeats(before: NodeState, states: seq<NodeState>, rx: bool)
    requires forall i :: 0 <= i < |states| ==> Evident(states[i])
    ensures |Turned(before, states, rx)| <= |Announced(before, states, rx)|
    ensures Turned(before, states, rx) == Announced(before, states, rx) <==> !Resumes(before, states)
    decreases |states|
  {
    if states != [] {
      hide Evident;
      ResumingRepeats(states[0], states[1..], rx);
      var first := if Turns(before, states[0], rx) then [Key(states[0], rx).value] else [];
      var t, a := Turned(states[0], states[1..], rx), Announced(states[0], states[1..], rx);
      if !before.complete && states[0].complete {
        CompleteHasKeys(states[0], rx);
      } else if first + t == first + a {
        Cancel(first, t, a);
      }
    }
  }

  lemma CompleteHasKeys(s: NodeState, rx: bool)
    requires Evident(s) && s.complete
    ensures Key(s, rx).Some?
  {
  }

  /**
    The events report the changes that were seen to happen, and nothing else, if and only if no complete snapshot of the
    stretch directly follows an unknown one. After a gap the listener announces the key state again, changed or not.
   */
  lemma OnlyChangesAreAnnounced(before: NodeState, states: seq<NodeState>, events: seq<Event>, post: Memory, rx: bool)
    requires Run(Remember(before), states, events, post)
    requires forall i :: 0 <= i < |states| ==> Evident(states[i])
    ensures KeyValues(events, rx) == Turned(before, states, rx) <==> !Resumes(before, states)
  {
    KeyEventsAreExact(before, states, events, post, rx);
    ResumingRepeats(before, states, rx);
  }

  /** Every value differs from the one before it, starting from a known one. */
  predicate Alternates(from: bool, values: seq<bool>)
    decreases |values|
  {
    values == [] || (values[0] != from && Alternates(values[0], values[1..]))
  }

  /** Whenever observation resumes, the key is not what it was when last known. */
  predicate ResumesChanged(last: bool, before: NodeState, states: seq<NodeState>, rx: bool)
    decreases |states|
  {
    states == []
    || (if states[0].complete && Key(states[0], rx).Some? then
          && (!before.complete ==> Key(states[0], rx).value != last)
          && ResumesChanged(Key(states[0], rx).value, states[0], states[1..], rx)
        else ResumesChanged(last, states[0], states[1..], rx))
  }

  /**
    Receiver events alternate strictly between on and off, and so do transmitter events, if and only if no gap of the
    stretch ends with the key as it was when last known; in particular over every stretch without gaps.
   */
  lemma KeyEventsAlternate(before: NodeState, states: seq<NodeState>, events: seq<Event>, post: Memory, rx: bool,
      last: bool)
    requires Run(Remember(before), states, events, post)
    requires forall i :: 0 <= i < |states| ==> Evident(states[i])
    requires before.complete ==> Key(before, rx) == Some(last)
    ensures Alternates(last, KeyValues(events, rx)) <==> ResumesChanged(last, before, states, rx)
    ensures before.complete && (forall i :: 0 <= i < |states| ==> states[i].complete) ==>
      Alternates(last, KeyValues(events, rx))
  {
    hide Evident, Run, Remember, ResumesChanged, Alternates;
    KeyEventsAreExact(before, states, events, post, rx);
    AnnouncedAlternate(last, before, states, rx);
    if before.complete && forall i :: 0 <= i < |states| ==> states[i].complete {
      NothingResumes(last, before, states, rx);
    }
  }

  lemma {:induction false} AnnouncedAlternate(last: bool, before: NodeState, states: seq<NodeState>, rx: bool)
    requires forall i :: 0 <= i < |states| ==> Evident(states[i])
    requires before.complete ==> Key(before, rx) == Some(last)
    ensures Alternates(last, Announced(before, states, rx)) <==> ResumesChanged(last, before, states, rx)
    decreases |states|
  {
    if states != [] {
      hide Evident;
      var s, rest := states[0], Announced(states[0], states[1..], rx);
      if s.complete {
        CompleteHasKeys(s, rx);
        AnnouncedAlternate(Key(s, rx).value, s, states[1..], rx);
        assert ([Key(s, rx).value] + rest)[1..] == rest;
      } else {
        AnnouncedAlternate(last, s, states[1..], rx);
      }
      assert [] + rest == rest;
    }
  }

  lemma {:induction false} NothingResumes(last: bool, before: NodeState, states: seq<NodeState>, rx: bool)
    requires before.complete && forall i :: 0 <= i < |states| ==> states[i].complete
    ensures ResumesChanged(last, before, states, rx)
    decreases |states|
  {
    if states != [] {
      NothingResumes(if Key(states[0], rx).Some? then Key(states[0], rx).value else last, states[0], states[1..], rx);
    }
  }

  /** A node whose receiver never changes, seen before and after a gap: its key state is announced twice. */
  lemma GapRepeatsKey(value: bool) returns (a: NodeState, gap: NodeState, events: seq<Event>, post: Memory)
    ensures Evident(a) && a.complete && a.rxKeyed == Some(value) && Evident(gap) && !gap.complete
    ensures Run(FORGOTTEN, [a, gap, a], events, post) && KeyValues(events, true) == [value, value]
  {
    a := Keying(value);
    gap := UnknownState("1", None, "");
    var once := Steady(FORGOTTEN, a);
    KeyingIsPolled(value, gap);
    hide Keying, Steady, Polled, Evident;
    OnePollRun(gap, a, once);
    RunGrows(a, gap, [Snapshot(gap)], [a], once, Remember(a));
    assert [gap] + [a] == [gap, a] && [a] + [gap, a] == [a, gap, a];
    RunGrows(gap, a, once, [gap, a], [Snapshot(gap)] + once, Remember(a));
    hide Run;
    events, post := once + ([Snapshot(gap)] + once), Remember(a);
    KeyEventsAreExact(gap, [a, gap, a], events, post, true);
    assert [a, gap, a][1..] == [gap, a] && [gap, a][1..] == [a];
    assert Announced(gap, [a], true) == [value];
    assert Announced(a, [gap, a], true) == [value];
  }

  function Keying(value: bool): NodeState {
    NodeState("1", None, if value then ACTIVE else CLEAR, true, Some(value), Some(false), Some([]), [])
  }

  lemma KeyingIsPolled(value: bool, gap: NodeState)
    requires gap == UnknownState("1", None, "")
    ensures var a := Keying(value);
      && Evident(a) && a.complete && a.rxKeyed == Some(value) && Evident(gap) && !gap.complete
      && Polled(Remember(gap), a, Steady(FORGOTTEN, a), Remember(a))
      && Polled(Remember(a), gap, [Snapshot(gap)], FORGOTTEN)
  {
  }

  lemma OnePollRun(before: NodeState, s: NodeState, events: seq<Event>)
    requires Polled(Remember(before), s, events, Remember(s))
    ensures Run(Remember(before), [s], events, Remember(s))
  {
    assert events[..|events|] == events && events[|events|..] == [] && [s][1..] == [];
    assert Run(Remember(s), [], [], Remember(s));
  }

  /** One more poll at the front. */
  lemma RunGrows(before: NodeState, s: NodeState, first: seq<Event>, states: seq<NodeState>, events: seq<Event>,
      post: Memory)
    requires Polled(Remember(before), s, first, Remember(s)) && Run(Remember(s), states, events, post)
    ensures Run(Remember(before), [s] + states, first + events, post)
  {
    var all := first + events;
    assert all[..|first|] == first && all[|first|..] == events && ([s] + states)[1..] == states;
  }

  // ---- across gaps ------------------------------------------------------------------------------

  function LinkEvent(name: string, joining: bool): Event {
    if joining then Connected(name) else Disconnected(name)
  }

  function Count(events: seq<Event>, e: Event): nat {
    if events == [] then 0 else (if events[0] == e then 1 else 0) + Count(events[1..], e)
  }

  lemma {:induction false} CountConcatenates(a: seq<Event>, b: seq<Event>, e: Event)
    ensures Count(a + b, e) == Count(a, e) + Count(b, e)
    decreases |a|
  {
    if a == [] {
      assert a + b == b;
    } else {
      assert (a + b)[1..] == a[1..] + b;
      CountConcatenates(a[1..], b, e);
    }
  }

  lemma {:induction false} CountLinkEvents(names: seq<string>, added: bool, name: string, joining: bool)
    requires forall i, j :: 0 <= i < j < |names| ==> names[i] != names[j]
    ensures Count(if added then Connections(names) else Disconnections(names), LinkEvent(name, joining)) ==
      if added == joining && name in names then 1 else 0
    decreases |names|
  {
    if names != [] {
      assert Connections(names)[1..] == Connections(names[1..]);
      assert Disconnections(names)[1..] == Disconnections(names[1..]);
      CountLinkEvents(names[1..], added, name, joining);
    }
  }

  lemma SteadyCounts(pre: Memory, s: NodeState, name: string, joining: bool)
    ensures Count(Steady(pre, s), LinkEvent(name, joining)) == 0
  {
    var e := LinkEvent(name, joining);
    var a, b, c: seq<Event> := [Snapshot(s)], KeyEvents(pre.rx, s.rxKeyed, true), KeyEvents(pre.tx, s.txKeyed, false);
    CountConcatenates(a + b, c, e);
    CountConcatenates(a, b, e);
  }

  /** The link came, or went, between two complete snapshots that directly follow each other. */
  ghost predicate Changes(before: NodeState, now: NodeState, name: string, joining: bool) {
    && before.complete && now.complete
    && (if joining then HasLink(now, name) && !HasLink(before, name)
        else HasLink(before, name) && !HasLink(now, name))
  }

  ghost function CountChanges(before: NodeState, states: seq<NodeState>, name: string, joining: bool): nat
    decreases |states|
  {
    if states == [] then 0
    else
      var first := if Changes(before, states[0], name, joining) then 1 else 0;
      first + CountChanges(states[0], states[1..], name, joining)
  }

  /** A poll's events for one link: one if it is there and was not remembered, or the other way round. */
  lemma PollCounts(pre: Memory, s: NodeState, events: seq<Event>, post: Memory, name: string, joining: bool)
    requires Polled(pre, s, events, post)
    ensures Count(events, LinkEvent(name, joining)) ==
      if s.complete && pre.known.Some? && HasLink(s, name) == joining && (name in pre.known.value) != joining then 1
      else 0
  {
    hide Steady, Current, HasLink;
    var e := LinkEvent(name, joining);
    SteadyCounts(pre, s, name, joining);
    CurrentIsLinked(s, name);
    if s.complete && pre.known.Some? {
      var base := pre.known.value;
      var added, removed :| Enumerates(added, Current(s) - base) && Enumerates(removed, base - Current(s))
        && events == Steady(pre, s) + Connections(added) + Disconnections(removed);
      CountConcatenates(Steady(pre, s) + Connections(added), Disconnections(removed), e);
      CountConcatenates(Steady(pre, s), Connections(added), e);
      CountLinkEvents(added, true, name, joining);
      CountLinkEvents(removed, false, name, joining);
    }
  }

  lemma OneSnapshot(pre: Memory, s: NodeState, events: seq<Event>, post: Memory)
    requires Polled(pre, s, events, post)
    ensures events != [] && events[0] == Snapshot(s) && forall i :: 0 < i < |events| ==> !events[i].Snapshot?
  {
    hide Enumerates, Current;
    if s.complete && pre.known.Some? {
      var base := pre.known.value;
      var added, removed :| Enumerates(added, Current(s) - base) && Enumerates(removed, base - Current(s))
        && events == Steady(pre, s) + Connections(added) + Disconnections(removed);
    }
  }

  /** One poll's events are what its state's own links and keys call for. */
  lemma PollTells(pre: Memory, s: NodeState, events: seq<Event>, post: Memory)
    requires Polled(pre, s, events, post) && Evident(s)
    ensures Tells(pre, s, events) && Keeps(post, s)
  {
    PollKeys(pre, s, events, post, true);
    PollKeys(pre, s, events, post, false);
    hide Count, KeyValues, HasLink, Current, Enumerates;
    forall name ensures name in Current(s) <==> HasLink(s, name) {
      CurrentIsLinked(s, name);
    }
    forall name
      ensures Count(events, Connected(name)) ==
        if s.complete && pre.known.Some? && name !in pre.known.value && HasLink(s, name) then 1 else 0
      ensures Count(events, Disconnected(name)) ==
        if s.complete && pre.known.Some? && name in pre.known.value && !HasLink(s, name) then 1 else 0
    {
      PollCounts(pre, s, events, post, name, true);
      PollCounts(pre, s, events, post, name, false);
    }
    OneSnapshot(pre, s, events, post);
  }

  /**
    Over any stretch of snapshots, with gaps anywhere: a link is announced exactly as often as it came between two
    complete snapshots in a row, and its departure exactly as often as it went. Gaps invent and repeat no link event.
   */
  lemma {:induction false} TransitionsAreExact(before: NodeState, states: seq<NodeState>, events: seq<Event>,
      post: Memory, name: string, joining: bool)
    requires Run(Remember(before), states, events, post)
    ensures Count(events, LinkEvent(name, joining)) == CountChanges(before, states, name, joining)
    ensures post == Remember(Last([before] + states))
    decreases |states|
  {
    hide Polled, Remember, HasLink, Count;
    if states == [] {
      NothingCounted(LinkEvent(name, joining));
    } else {
      var cut, mid := FirstPoll(Remember(before), states, events, post);
      RememberedLinks(before, name);
      PollCounts(Remember(before), states[0], events[..cut], mid, name, joining);
      PollRemembers(Remember(before), states[0], events[..cut], mid);
      TransitionsAreExact(states[0], states[1..], events[cut..], post, name, joining);
      CountConcatenates(events[..cut], events[cut..], LinkEvent(name, joining));
      assert events == events[..cut] + events[cut..];
      assert [states[0]] + states[1..] == states;
    }
  }

  lemma RememberedLinks(before: NodeState, name: string)
    ensures before.complete <==> Remember(before).known.Some?
    ensures before.complete ==> (name in Remember(before).known.value <==> HasLink(before, name))
  {
    CurrentIsLinked(before, name);
  }

  lemma NothingCounted(e: Event)
    ensures Count([], e) == 0
  {
  }
}
