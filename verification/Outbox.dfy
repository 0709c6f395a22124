/**
 The transactional outbox: messages are committed to a delivery queue and to a permanent log in
 one step, and relays publish what is queued and only then take it off the queue. Nothing that
 was logged is ever lost, however relays crash, and a single relay keeps the order of the log.
 */
module Outbox {
  type Id = nat

  /** A message and its unique id. */
  datatype Envelope<T> = Envelope(id: Id, body: T)

  /** The queue without the messages of the given ids, in order. */
  function Without<T>(q: seq<Envelope<T>>, ids: set<Id>): seq<Envelope<T>> {
    if q == [] then []
    else
      var rest := Without(q[..|q| - 1], ids);
      if q[|q| - 1].id in ids then rest else rest + [q[|q| - 1]]
  }

  ghost predicate UniqueIds<T>(q: seq<Envelope<T>>) {
    forall i, j :: 0 <= i < j < |q| ==> q[i].id != q[j].id
  }

  function Ids<T>(q: seq<Envelope<T>>): set<Id> {
    set i | 0 <= i < |q| :: q[i].id
  }

  function IdSet(ids: seq<Id>): set<Id> {
    set id | id in ids
  }

  // ---------- Laws of Without ----------

  lemma {:induction false} WithoutConcat<T>(a: seq<Envelope<T>>, b: seq<Envelope<T>>, ids: set<Id>)
    ensures Without(a + b, ids) == Without(a, ids) + Without(b, ids)
  {
    if b == [] {
      assert a + b == a;
    } else {
      assert (a + b)[..|a + b| - 1] == a + b[..|b| - 1];
      WithoutConcat(a, b[..|b| - 1], ids);
    }
  }

  lemma {:induction false} WithoutTwice<T>(q: seq<Envelope<T>>, a: set<Id>, b: set<Id>)
    ensures Without(Without(q, a), b) == Without(q, a + b)
  {
    if q != [] {
      WithoutTwice(q[..|q| - 1], a, b);
      if q[|q| - 1].id !in a {
        WithoutConcat(Without(q[..|q| - 1], a), [q[|q| - 1]], b);
        assert Without([q[|q| - 1]], b) == if q[|q| - 1].id in b then [] else [q[|q| - 1]] by {
          assert [q[|q| - 1]][..0] == [];
        }
      }
    }
  }

  lemma {:induction false} WithoutMembers<T>(q: seq<Envelope<T>>, ids: set<Id>)
    ensures forall m :: m in Without(q, ids) <==> m in q && m.id !in ids
  {
    if q != [] {
      WithoutMembers(q[..|q| - 1], ids);
      assert q == q[..|q| - 1] + [q[|q| - 1]];
    }
  }

  lemma {:induction false} WithoutNone<T>(q: seq<Envelope<T>>, ids: set<Id>)
    requires forall m :: m in q ==> m.id !in ids
    ensures Without(q, ids) == q
  {
    if q != [] {
      assert forall m :: m in q[..|q| - 1] ==> m in q;
      WithoutNone(q[..|q| - 1], ids);
    }
  }

  lemma {:induction false} WithoutAll<T>(q: seq<Envelope<T>>, ids: set<Id>)
    requires forall m :: m in q ==> m.id in ids
    ensures Without(q, ids) == []
  {
    if q != [] {
      assert forall m :: m in q[..|q| - 1] ==> m in q;
      WithoutAll(q[..|q| - 1], ids);
    }
  }

  /** With unique ids, taking off a prefix by id leaves the rest. */
  lemma WithoutPrefix<T>(q: seq<Envelope<T>>, n: nat)
    requires n <= |q| && UniqueIds(q)
    ensures Without(q, Ids(q[..n])) == q[n..]
  {
    assert q == q[..n] + q[n..];
    WithoutConcat(q[..n], q[n..], Ids(q[..n]));
    WithoutAll(q[..n], Ids(q[..n]));
    WithoutNone(q[n..], Ids(q[..n]));
  }

  // ---------- The store in memory ----------

  class Stores<T> {
    var queue: seq<Envelope<T>>
    var log: seq<Envelope<T>>

    constructor ()
      ensures queue == [] && log == []
    {
      queue, log := [], [];
    }

    /** Appends the messages of one committed transaction to queue and log together. */
    method CommitStaged(msgs: seq<Envelope<T>>)
      modifies this
      ensures queue == old(queue) + msgs && log == old(log) + msgs
    {
      if |msgs| == 0 {
        return;
      }
      queue := queue + msgs;
      log := log + msgs;
    }

    /** Up to `limit` messages from the front of the queue; no limit when it is not positive. */
    method Unpublished(limit: int) returns (out: seq<Envelope<T>>)
      ensures out == queue[..if 0 < limit < |queue| then limit else |queue|]
    {
      out := [];
      for i := 0 to |queue|
        invariant out == queue[..i]
        invariant limit > 0 ==> i < limit || i == 0
      {
        out := out + [queue[i]];
        if limit > 0 && |out| >= limit {
          break;
        }
      }
    }

    /** Takes published messages off the queue; the log keeps them. */
    method MarkPublished(ids: seq<Id>)
      modifies this
      ensures queue == Without(old(queue), IdSet(ids)) && log == old(log)
    {
      var drop := IdSet(ids);
      var kept: seq<Envelope<T>> := [];
      for i := 0 to |queue|
        invariant kept == Without(queue[..i], drop)
      {
        assert queue[..i + 1][..i] == queue[..i];
        var m := queue[i];
        if m.id in drop {
          continue;
        }
        kept := kept + [m];
      }
      assert queue[..|queue|] == queue;
      queue := kept;
    }
  }

  /** How the transport answers for one message, and whether taking it off the queue worked. */
  datatype Outcome = Delivered | PublishFails | MarkFails

  /** How many of the first `n` answers in a row were deliveries. */
  function Streak(script: seq<Outcome>, n: nat): (k: nat)
    requires n <= |script|
    ensures k <= n
  {
    if n == 0 then 0
    else
      var k := Streak(script, n - 1);
      if k == n - 1 && script[n - 1].Delivered? then n else k
  }

  /** The streak ends at the first answer that is no delivery. */
  lemma {:induction false} StreakMeans(script: seq<Outcome>, n: nat)
    requires n <= |script|
    ensures forall i :: 0 <= i < Streak(script, n) ==> script[i].Delivered?
    ensures Streak(script, n) < n ==> !script[Streak(script, n)].Delivered?
  {
    if n > 0 { StreakMeans(script, n - 1); }
  }

  lemma {:induction false} StreakStops(script: seq<Outcome>, k: nat, n: nat)
    requires k < n <= |script| && Streak(script, k) == k && !script[k].Delivered?
    ensures Streak(script, n) == k
  {
    if k < n - 1 { StreakStops(script, k, n - 1); }
  }

  lemma TakeOffHead<T>(q: seq<Envelope<T>>)
    requires q != [] && UniqueIds(q)
    ensures Without(q, {q[0].id}) == q[1..]
  {
    WithoutPrefix(q, 1);
    assert Ids(q[..1]) == {q[0].id};
  }

  lemma TakeOffNext<T>(q: seq<Envelope<T>>, i: nat)
    requires i < |q| && UniqueIds(q)
    ensures Without(q[i..], {q[i].id}) == q[i + 1..]
  {
    TakeOffHead(q[i..]);
  }

  // ---------- Relays and producers interleaved ----------

  type RelayId = nat

  /** What is left of a relay's batch, and whether its first message has just been published. */
  datatype Relay<T> = Relay(batch: seq<Envelope<T>>, awaitsMark: bool)

  /** `gone` and `published` record history: ids taken off the queue, and publications in order. */
  datatype State<T> = State(
    queue: seq<Envelope<T>>, log: seq<Envelope<T>>, relays: map<RelayId, Relay<T>>,
    published: seq<Envelope<T>>, gone: set<Id>)

  datatype Action<T> =
    | Commit(msgs: seq<Envelope<T>>)
    | Fetch(r: RelayId, limit: nat)
    | Publish(r: RelayId)
    | Mark(r: RelayId)
    | Stop(r: RelayId)  // a failed publication, a failed removal, a crash, or the end of a round

  ghost predicate Enabled<T(!new)>(s: State<T>, a: Action<T>) {
    match a
    case Commit(msgs) => UniqueIds(s.log + msgs)
    case Fetch(r, limit) => r !in s.relays && limit <= |s.queue|
    case Publish(r) => r in s.relays && s.relays[r].batch != [] && !s.relays[r].awaitsMark
    case Mark(r) => r in s.relays && s.relays[r].batch != [] && s.relays[r].awaitsMark
    case Stop(r) => r in s.relays
  }

  ghost function Step<T(!new)>(s: State<T>, a: Action<T>): State<T>
    requires Enabled(s, a)
  {
    match a
    case Commit(msgs) => s.(queue := s.queue + msgs, log := s.log + msgs)
    case Fetch(r, limit) => s.(relays := s.relays[r := Relay(s.queue[..limit], false)])
    case Publish(r) =>
      s.(relays := s.relays[r := s.relays[r].(awaitsMark := true)], published := s.published + [s.relays[r].batch[0]])
    case Mark(r) =>
      var id := s.relays[r].batch[0].id;
      s.(relays := s.relays[r := Relay(s.relays[r].batch[1..], false)],
         queue := Without(s.queue, {id}), gone := s.gone + {id})
    case Stop(r) => s.(relays := s.relays - {r})
  }

  ghost predicate Run<T(!new)>(s: State<T>, actions: seq<Action<T>>, end: State<T>)
    decreases |actions|
  {
    if actions == [] then end == s
    else Enabled(s, actions[0]) && Run(Step(s, actions[0]), actions[1..], end)
  }

  ghost function Initial<T>(): State<T> {
    State([], [], map[], [], {})
  }

  lemma {:induction false} OneMoreStep<T(!new)>(s: State<T>, actions: seq<Action<T>>, mid: State<T>, a: Action<T>)
    requires Run(s, actions, mid) && Enabled(mid, a)
    ensures Run(s, actions + [a], Step(mid, a))
    decreases |actions|
  {
    if actions == [] {
      assert [a][1..] == [];
    } else {
      assert (actions + [a])[1..] == actions[1..] + [a];
      OneMoreStep(Step(s, actions[0]), actions[1..], mid, a);
    }
  }

  // ---------- One round of a relay ----------

  /** A step of this relay alone. */
  predicate StepOf<T>(a: Action<T>, r: RelayId) {
    !a.Commit? && a.r == r
  }

  /** The machine when a relay has dealt with the first `i` of the `n` messages it fetched. */
  ghost function Underway<T(!new)>(s: State<T>, r: RelayId, n: nat, i: nat): State<T>
    requires i <= n <= |s.queue|
  {
    s.(queue := s.queue[i..], relays := s.relays[r := Relay(s.queue[i..n], false)],
       published := s.published + s.queue[..i], gone := s.gone + Ids(s.queue[..i]))
  }

  lemma Fetches<T(!new)>(s: State<T>, r: RelayId, n: nat) returns (actions: seq<Action<T>>)
    requires r !in s.relays && n <= |s.queue|
    ensures Run(s, actions, Underway(s, r, n, 0)) && forall a :: a in actions ==> StepOf(a, r)
  {
    actions := [Fetch(r, n)];
    assert s.queue[0..n] == s.queue[..n] && s.published + s.queue[..0] == s.published && Ids(s.queue[..0]) == {};
    assert Run(Step(s, Fetch(r, n)), [], Underway(s, r, n, 0));
  }

  lemma PublishNext<T(!new)>(s: State<T>, r: RelayId, n: nat, i: nat)
    requires i < n <= |s.queue|
    ensures Enabled(Underway(s, r, n, i), Publish(r))
    ensures var t := Step(Underway(s, r, n, i), Publish(r));
      && t == Underway(s, r, n, i).(published := s.published + s.queue[..i + 1], relays := t.relays)
      && t.relays == s.relays[r := Relay(s.queue[i..n], true)]
  {
    assert s.queue[i..n][0] == s.queue[i];
    assert s.published + s.queue[..i] + [s.queue[i]] == s.published + s.queue[..i + 1];
  }

  lemma MarkNext<T(!new)>(s: State<T>, r: RelayId, n: nat, i: nat)
    requires i < n <= |s.queue| && UniqueIds(s.queue)
    ensures Enabled(Underway(s, r, n, i), Publish(r))
    ensures var t := Step(Underway(s, r, n, i), Publish(r));
      Enabled(t, Mark(r)) && Step(t, Mark(r)) == Underway(s, r, n, i + 1)
  {
    PublishNext(s, r, n, i);
    TakeOffNext(s.queue, i);
    assert s.queue[i..n][1..] == s.queue[i + 1..n];
    assert s.queue[..i + 1] == s.queue[..i] + [s.queue[i]];
    assert Ids(s.queue[..i + 1]) == Ids(s.queue[..i]) + {s.queue[i].id} by {
      assert s.queue[..i + 1][i] == s.queue[i];
      assert forall k :: 0 <= k < i ==> s.queue[..i + 1][k] == s.queue[..i][k];
    }
  }

  lemma Left<T(!new)>(s: State<T>, r: RelayId, n: nat, i: nat)
    requires i <= n <= |s.queue| && r !in s.relays
    ensures var t := Underway(s, r, n, i);
      && t.queue == s.queue[i..] && t.log == s.log && r in t.relays && t.relays - {r} == s.relays
      && t.published == s.published + s.queue[..i]
  {
  }

  lemma LeftPublished<T(!new)>(s: State<T>, r: RelayId, n: nat, i: nat)
    requires i < n <= |s.queue| && r !in s.relays && Enabled(Underway(s, r, n, i), Publish(r))
    ensures var t := Step(Underway(s, r, n, i), Publish(r));
      && t.queue == s.queue[i..] && t.log == s.log && r in t.relays && t.relays - {r} == s.relays
      && t.published == s.published + s.queue[..i + 1]
  {
    PublishNext(s, r, n, i);
  }

  /** However the round came to its end, the relay stops. */
  lemma Stops<T(!new)>(s: State<T>, r: RelayId, actions: seq<Action<T>>, mid: State<T>)
    returns (all: seq<Action<T>>, end: State<T>)
    requires Run(s, actions, mid) && r in mid.relays && forall a :: a in actions ==> StepOf(a, r)
    ensures Run(s, all, end) && (forall a :: a in all ==> StepOf(a, r)) && end == mid.(relays := mid.relays - {r})
  {
    OneMoreStep(s, actions, mid, Stop(r));
    all, end := actions + [Stop(r)], Step(mid, Stop(r));
  }

  lemma {:induction false} Delivers<T(!new)>(s: State<T>, r: RelayId, n: nat, i: nat) returns (actions: seq<Action<T>>)
    requires UniqueIds(s.queue) && r !in s.relays && i <= n <= |s.queue|
    ensures Run(s, actions, Underway(s, r, n, i)) && forall a :: a in actions ==> StepOf(a, r)
  {
    hide Run, Underway, Step, Enabled;
    if i == 0 {
      actions := Fetches(s, r, n);
    } else {
      var before := Delivers(s, r, n, i - 1);
      MarkNext(s, r, n, i - 1);
      OneMoreStep(s, before, Underway(s, r, n, i - 1), Publish(r));
      OneMoreStep(s, before + [Publish(r)], Step(Underway(s, r, n, i - 1), Publish(r)), Mark(r));
      actions := before + [Publish(r)] + [Mark(r)];
    }
  }

  /** Fetching `n` messages, delivering `sent` of them, perhaps publishing one more, and stopping. */
  lemma RoundIsARun<T(!new)>(s: State<T>, r: RelayId, n: nat, sent: nat, told: nat)
    returns (actions: seq<Action<T>>, end: State<T>)
    requires UniqueIds(s.queue) && r !in s.relays
    requires n <= |s.queue| && sent <= told <= sent + 1 && told <= n
    ensures Run(s, actions, end) && forall a :: a in actions ==> StepOf(a, r)
    ensures end.queue == s.queue[sent..] && end.log == s.log && end.relays == s.relays
    ensures end.published == s.published + s.queue[..told]
  {
    hide Run, Underway, Step, Enabled;
    actions := Delivers(s, r, n, sent);
    Left(s, r, n, sent);
    if told == sent {
      actions, end := Stops(s, r, actions, Underway(s, r, n, sent));
    } else {
      MarkNext(s, r, n, sent);
      LeftPublished(s, r, n, sent);
      OneMoreStep(s, actions, Underway(s, r, n, sent), Publish(r));
      actions, end := Stops(s, r, actions + [Publish(r)], Step(Underway(s, r, n, sent), Publish(r)));
    }
  }

  /** One round of the relay over the messages queued at its start. It stops at the first failure;
      exactly the messages delivered before it leave the queue, and a message whose publication
      went through but whose removal failed stays queued, to be published again. From any state of
      the machine with this queue and log, the round is a run of this relay's steps to one with the
      queue, log and publications it leaves. */
  method RunOnce<T(!new)>(store: Stores<T>, batch: nat, script: seq<Outcome>, ghost s: State<T>, ghost r: RelayId)
    returns (sent: nat, failed: bool, published: seq<Envelope<T>>, ghost actions: seq<Action<T>>, ghost end: State<T>)
    requires UniqueIds(store.queue) && |script| >= |store.queue|
    requires s.queue == store.queue && s.log == store.log && r !in s.relays
    modifies store
    ensures var n := if 0 < batch < |old(store.queue)| then batch else |old(store.queue)|;
      && sent == Streak(script, n)
      && failed == (sent < n)
      && store.queue == old(store.queue)[sent..] && store.log == old(store.log)
      && published == old(store.queue)[..if failed && script[sent].MarkFails? then sent + 1 else sent]
    ensures forall i :: 0 <= i < sent ==> script[i].Delivered?
    ensures failed ==> !script[sent].Delivered?
    ensures Run(s, actions, end) && forall a :: a in actions ==> StepOf(a, r)
    ensures end.queue == store.queue && end.log == store.log && end.relays == s.relays
    ensures end.published == s.published + published
  {
    hide Run, Without;
    var msgs := store.Unpublished(batch);
    StreakMeans(script, |msgs|);
    ghost var q := store.queue;
    sent, failed, published := 0, false, [];
    for i := 0 to |msgs|
      invariant sent == i == Streak(script, i) && !failed
      invariant published == q[..i] && store.queue == q[i..] && store.log == old(store.log)
    {
      var m := msgs[i];
      if script[i].PublishFails? {
        StreakStops(script, i, |msgs|);
        actions, end := RoundIsARun(s, r, |msgs|, i, i);
        return sent, true, published, actions, end;
      }
      published := published + [m];
      if script[i].MarkFails? {
        StreakStops(script, i, |msgs|);
        actions, end := RoundIsARun(s, r, |msgs|, i, i + 1);
        return sent, true, published, actions, end;
      }
      store.MarkPublished([m.id]);
      TakeOffNext(q, i);
      assert m == q[i] && IdSet([m.id]) == {m.id};
      sent := sent + 1;
    }
    actions, end := RoundIsARun(s, r, |msgs|, |msgs|, |msgs|);
  }

  // ---------- Nothing is lost ----------

  ghost predicate RelayOk<T(!new)>(s: State<T>, rl: Relay<T>) {
    && (forall m :: m in rl.batch ==> m in s.log)
    && (rl.awaitsMark ==> rl.batch != [] && rl.batch[0] in s.published)
  }

  ghost predicate Inv<T(!new)>(s: State<T>) {
    && UniqueIds(s.log)
    && s.queue == Without(s.log, s.gone)
    && (forall m :: m in s.log && m.id in s.gone ==> m in s.published)
    && (forall id :: id in s.gone ==> id in Ids(s.log))
    && (forall m :: m in s.published ==> m in s.log)
    && (forall r :: r in s.relays ==> RelayOk(s, s.relays[r]))
  }

  lemma SameIdSameMessage<T>(q: seq<Envelope<T>>, a: Envelope<T>, b: Envelope<T>)
    requires UniqueIds(q) && a in q && b in q && a.id == b.id
    ensures a == b
  {
  }

  lemma CommitKeepsInv<T(!new)>(s: State<T>, msgs: seq<Envelope<T>>)
    requires Inv(s) && Enabled(s, Commit(msgs))
    ensures Inv(Step(s, Commit(msgs)))
  {
    var n := Step(s, Commit(msgs));
    WithoutConcat(s.log, msgs, s.gone);
    forall m | m in msgs ensures m.id !in s.gone {
      var k :| 0 <= k < |msgs| && msgs[k] == m;
      assert n.log[|s.log| + k] == m;
      assert forall i :: 0 <= i < |s.log| ==> n.log[i] == s.log[i] && n.log[i].id != n.log[|s.log| + k].id;
      assert m.id !in Ids(s.log);
    }
    WithoutNone(msgs, s.gone);
    forall id | id in s.gone ensures id in Ids(n.log) {
      var i :| 0 <= i < |s.log| && s.log[i].id == id;
      assert n.log[i].id == id;
    }
    forall r | r in n.relays ensures RelayOk(n, n.relays[r]) {
      assert RelayOk(s, s.relays[r]);
    }
  }

  lemma MarkKeepsInv<T(!new)>(s: State<T>, r: RelayId)
    requires Inv(s) && Enabled(s, Mark(r))
    ensures Inv(Step(s, Mark(r)))
  {
    var n := Step(s, Mark(r));
    var m := s.relays[r].batch[0];
    assert RelayOk(s, s.relays[r]);
    WithoutTwice(s.log, s.gone, {m.id});
    forall x | x in s.log && x.id == m.id ensures x in s.published {
      SameIdSameMessage(s.log, x, m);
    }
    var i :| 0 <= i < |s.log| && s.log[i] == m;
    assert m.id in Ids(s.log);
    forall q | q in n.relays ensures RelayOk(n, n.relays[q]) {
      assert RelayOk(s, s.relays[q]);
      assert forall x :: x in s.relays[r].batch[1..] ==> x in s.relays[r].batch;
    }
  }

  lemma RelayStepKeepsInv<T(!new)>(s: State<T>, a: Action<T>)
    requires Inv(s) && Enabled(s, a) && !a.Commit? && !a.Mark?
    ensures Inv(Step(s, a))
  {
    var n := Step(s, a);
    WithoutMembers(s.log, s.gone);
    if a.Publish? { assert RelayOk(s, s.relays[a.r]); }
    forall q | q in n.relays ensures RelayOk(n, n.relays[q]) {
      if q in s.relays { assert RelayOk(s, s.relays[q]); }
    }
  }

  lemma StepKeepsInv<T(!new)>(s: State<T>, a: Action<T>)
    requires Inv(s) && Enabled(s, a)
    ensures Inv(Step(s, a))
    ensures s.log <= Step(s, a).log
  {
    match a
    case Commit(msgs) => CommitKeepsInv(s, msgs);
    case Mark(r) => MarkKeepsInv(s, r);
    case _ => RelayStepKeepsInv(s, a);
  }

  lemma {:induction false} RunKeepsInv<T(!new)>(s: State<T>, actions: seq<Action<T>>, end: State<T>)
    requires Inv(s) && Run(s, actions, end)
    ensures Inv(end) && s.log <= end.log
    decreases |actions|
  {
    if actions != [] {
      StepKeepsInv(s, actions[0]);
      RunKeepsInv(Step(s, actions[0]), actions[1..], end);
    }
  }

  /** However many relays run, stop and crash between publishing and removing, and wherever
      producers commit in between: the log is only appended to, the queue is the log minus some
      messages in the same order, and every logged message off the queue has been published. */
  lemma NothingIsLost<T(!new)>(earlier: seq<Action<T>>, mid: State<T>, later: seq<Action<T>>, end: State<T>)
    requires Run(Initial<T>(), earlier, mid) && Run(mid, later, end)
    ensures mid.log <= end.log
    ensures end.queue == Without(end.log, end.gone) && UniqueIds(end.log)
    ensures forall m :: m in end.log ==> m in end.queue || m in end.published
    ensures forall m :: m in end.published ==> m in end.log
  {
    RunKeepsInv(Initial<T>(), earlier, mid);
    RunKeepsInv(mid, later, end);
    WithoutMembers(end.log, end.gone);
  }

  // ---------- A single relay keeps the order ----------

  /** Each message once, in the order of its first publication. */
  function Firsts<T(==)>(published: seq<Envelope<T>>): seq<Envelope<T>> {
    if published == [] then []
    else
      var before, last := published[..|published| - 1], published[|published| - 1];
      if last in before then Firsts(before) else Firsts(before) + [last]
  }

  predicate OneRelay<T>(a: Action<T>) {
    a.Commit? || a.r == 0
  }

  /** The first `j` logged messages have been removed and the first `k` published. */
  ghost predicate InOrder<T(!new)>(s: State<T>, j: nat, k: nat) {
    && j <= k <= j + 1 && k <= |s.log|
    && UniqueIds(s.log)
    && s.queue == s.log[j..]
    && Firsts(s.published) == s.log[..k]
    && (forall m :: m in s.published <==> m in s.log[..k])
    && s.relays.Keys <= {0}
    && (0 in s.relays ==>
          && s.relays[0].batch <= s.queue
          && (s.relays[0].awaitsMark ==> k == j + 1 && s.relays[0].batch != []))
  }

  lemma FirstsSnoc<T>(published: seq<Envelope<T>>, m: Envelope<T>)
    ensures Firsts(published + [m]) == if m in published then Firsts(published) else Firsts(published) + [m]
  {
    assert (published + [m])[..|published|] == published;
  }

  lemma PublishKeepsOrder<T(!new)>(s: State<T>, j: nat, k: nat) returns (k': nat)
    requires InOrder(s, j, k) && Enabled(s, Publish(0))
    ensures InOrder(Step(s, Publish(0)), j, k')
  {
    var m := s.relays[0].batch[0];
    assert m == s.queue[0] == s.log[j];
    FirstsSnoc(s.published, m);
    if k == j + 1 {
      assert s.log[..k][j] == m;
      k' := k;
    } else {
      assert m !in s.log[..k] by {
        assert forall i :: 0 <= i < k ==> s.log[i].id != m.id;
      }
      assert s.log[..k + 1] == s.log[..k] + [m];
      k' := k + 1;
    }
  }

  lemma StepKeepsOrder<T(!new)>(s: State<T>, a: Action<T>, j: nat, k: nat) returns (j': nat, k': nat)
    requires InOrder(s, j, k) && Enabled(s, a) && OneRelay(a)
    ensures InOrder(Step(s, a), j', k')
  {
    j', k' := j, k;
    match a
    case Commit(msgs) =>
      assert (s.log + msgs)[..k] == s.log[..k];
      assert (s.log + msgs)[j..] == s.queue + msgs;
    case Fetch(_, _) =>
    case Publish(_) => k' := PublishKeepsOrder(s, j, k);
    case Mark(_) =>
      assert s.relays[0].batch[0] == s.queue[0] == s.log[j];
      TakeOffHead(s.queue);
      j' := j + 1;
    case Stop(_) =>
  }

  /** With one relay over the first-in-first-out store, messages are first published in the order
      of the log and without gaps, whatever crashes and repeats there are. */
  lemma {:induction false} FirstPublicationsFollowTheLog<T(!new)>(s: State<T>, j: nat, k: nat,
                                                                  actions: seq<Action<T>>, end: State<T>)
    returns (j': nat, k': nat)
    requires InOrder(s, j, k) && Run(s, actions, end)
    requires forall a :: a in actions ==> OneRelay(a)
    ensures InOrder(end, j', k')
    ensures Firsts(end.published) <= end.log
    decreases |actions|
  {
    if actions == [] {
      return j, k;
    }
    var j1, k1 := StepKeepsOrder(s, actions[0], j, k);
    j', k' := FirstPublicationsFollowTheLog(Step(s, actions[0]), j1, k1, actions[1..], end);
  }

  /** So if `a` was logged before `b`, then `b` has not been published unless `a` has. */
  lemma EarlierFirst<T(!new)>(actions: seq<Action<T>>, end: State<T>, i: nat, l: nat)
    requires Run(Initial<T>(), actions, end) && forall a :: a in actions ==> OneRelay(a)
    requires i < l < |end.log| && end.log[l] in end.published
    ensures end.log[i] in end.published
  {
    var j, k := FirstPublicationsFollowTheLog(Initial<T>(), 0, 0, actions, end);
    var x :| 0 <= x < k && end.log[x] == end.log[l];
    assert x == l;
    assert end.log[..k][i] == end.log[i];
  }
}
