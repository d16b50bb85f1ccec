/** Which channels a sweep forgets and which a send buffers, told from what happened before alone. */
module HubHistory {
  import opened Common
  import opened Hub

  function RunOf(epoch: string, ops: seq<Op>): Hub { Run(Start(epoch), ops) }

  lemma RunSnoc(epoch: string, ops: seq<Op>, op: Op)
    ensures RunOf(epoch, ops + [op]) == Apply(RunOf(epoch, ops), op)
  {
    assert (ops + [op])[..|ops|] == ops;
  }

  // ----- What one send does -----

  lemma PushFrame(k: Hub, ch: Channel, e: Envelope)
    ensures var p := PushTo(k, ch, e);
            && p.latest == k.latest && p.wantedAt == k.wantedAt && p.clients == k.clients && p.lives == k.lives && p.seqs == k.seqs
            && p.bufs.Keys == k.bufs.Keys + {ch}
  {
    hide RB.Pushed;
    assert k.bufs[ch := |k.pool|].Keys == k.bufs.Keys + {ch};
  }

  lemma KeepFrameOf(a: Hub, ch: Channel, now: int)
    ensures var k := KeepReplay(a, ch, now);
            && k.latest == a.latest && k.clients == a.clients && k.lives == a.lives && k.seqs == a.seqs
            && k.wantedAt - {ch} == a.wantedAt - {ch}
  {
    hide AnyoneWants, WantedLately;
    assert a.wantedAt[ch := now] - {ch} == a.wantedAt - {ch};
    assert (a.wantedAt - {ch}) - {ch} == a.wantedAt - {ch};
  }

  /** Only a candle or indicator channel's interest is kept. */
  predicate Timed(ch: Channel) { ch.Candle? || ch.Indicator? }

  lemma KeepDecides(a: Hub, ch: Channel, now: int)
    ensures var k := KeepReplay(a, ch, now);
            && (Timed(ch) && AnyoneWants(a.clients, ch) ==> ch in k.wantedAt && k.wantedAt[ch] == now && Keeps(a, ch, now))
            && (Timed(ch) && !AnyoneWants(a.clients, ch) && ch in a.wantedAt && now - a.wantedAt[ch] < GRACE ==>
                  ch in k.wantedAt && k.wantedAt[ch] == a.wantedAt[ch] && Keeps(a, ch, now))
            && (Timed(ch) && !AnyoneWants(a.clients, ch) && !(ch in a.wantedAt && now - a.wantedAt[ch] < GRACE) ==>
                  ch !in k.wantedAt && ch !in k.bufs && !Keeps(a, ch, now))
            && (!Timed(ch) ==> k == a && Keeps(a, ch, now) == !ch.Tick?)
  {
    hide AnyoneWants;
  }

  lemma SendFrame(h: Hub, ch: Channel, data: string, now: int)
    ensures var k := Broadcast(h, ch, data, now);
            && k.latest == h.latest[ch := Latest(data, now, SeqOf(h, ch) + 1)] && k.clients == h.clients && k.lives == h.lives
            && k.seqs == h.seqs[ch := SeqOf(h, ch) + 1] && k.wantedAt - {ch} == h.wantedAt - {ch}
  {
    hide Keeps, KeepReplay, PushTo;
    var a := Number(h, ch, data, now);
    KeepFrameOf(a, ch, now);
    PushFrame(KeepReplay(a, ch, now), ch, NextEnvelope(h, ch, data));
  }

  lemma SendInterest(h: Hub, ch: Channel, data: string, now: int)
    ensures var k := Broadcast(h, ch, data, now);
            && (Timed(ch) && AnyoneWants(h.clients, ch) ==> ch in k.wantedAt && k.wantedAt[ch] == now && ch in k.bufs)
            && (Timed(ch) && !AnyoneWants(h.clients, ch) && ch in h.wantedAt && now - h.wantedAt[ch] < GRACE ==>
                  ch in k.wantedAt && k.wantedAt[ch] == h.wantedAt[ch] && ch in k.bufs)
            && (Timed(ch) && !AnyoneWants(h.clients, ch) && !(ch in h.wantedAt && now - h.wantedAt[ch] < GRACE) ==>
                  ch !in k.wantedAt && ch !in k.bufs)
            && (!Timed(ch) ==> k.wantedAt == h.wantedAt && (ch in k.bufs <==> !ch.Tick? || ch in h.bufs))
  {
    var a := Number(h, ch, data, now);
    KeepDecides(a, ch, now);
    hide Keeps, KeepReplay, PushTo, AnyoneWants;
    PushFrame(KeepReplay(a, ch, now), ch, NextEnvelope(h, ch, data));
  }

  // ----- Sweeps -----

  /** The time of the last send on the channel. */
  function LastSend(ops: seq<Op>, ch: Channel): Option<int> {
    if ops == [] then None
    else
      var op := ops[|ops| - 1];
      if op.Send? && op.ch == ch then Some(op.now) else LastSend(ops[..|ops| - 1], ch)
  }

  lemma {:induction false} LatestIsLastSend(epoch: string, ops: seq<Op>, ch: Channel)
    ensures ch in RunOf(epoch, ops).latest ==> LastSend(ops, ch) == Some(RunOf(epoch, ops).latest[ch].ts)
  {
    hide Broadcast, Evict;
    if ops != [] {
      var init, op := ops[..|ops| - 1], ops[|ops| - 1];
      assert init + [op] == ops;
      LatestIsLastSend(epoch, init, ch);
      RunSnoc(epoch, init, op);
      hide RunOf;
      LatestStep(RunOf(epoch, init), op, ch);
    }
  }

  lemma LatestStep(h: Hub, op: Op, ch: Channel)
    ensures var k := Apply(h, op);
            ch in k.latest ==> if op.Send? && op.ch == ch then k.latest[ch].ts == op.now
                               else ch in h.latest && k.latest[ch] == h.latest[ch]
  {
    if op.Send? { SendFrame(h, op.ch, op.data, op.now); }
    hide Broadcast, IdleSet;
  }

  /** Nothing is known of the channel. */
  predicate Forgotten(h: Hub, ch: Channel) { ch !in h.seqs && ch !in h.latest && ch !in h.bufs && ch !in h.wantedAt }

  predicate SameAt<K(==), V(==)>(a: map<K, V>, b: map<K, V>, k: K) {
    (k in a <==> k in b) && (k in a ==> a[k] == b[k])
  }

  /** Everything known of the channel is as before. */
  predicate Untouched(h: Hub, k: Hub, ch: Channel) {
    && SameAt(h.seqs, k.seqs, ch) && SameAt(h.latest, k.latest, ch) && SameAt(h.bufs, k.bufs, ch)
    && SameAt(h.wantedAt, k.wantedAt, ch) && k.pool == h.pool
  }

  /** After any history, a sweep leaves a numbered channel alone if its last send came less than ttl before, or if it is the
      signal channel, a state channel or an analyst's; every other numbered channel it forgets. */
  lemma SweepExact(epoch: string, ops: seq<Op>, now: int, ttl: int, ch: Channel)
    ensures var h, k := RunOf(epoch, ops), RunOf(epoch, ops + [Sweep(now, ttl)]);
            if ch !in h.seqs then Untouched(h, k, ch)
            else
              && LastSend(ops, ch).Some?
              && if now - LastSend(ops, ch).value < ttl || ch.Signal? || ch.State? || ch.Analyst? then Untouched(h, k, ch)
                 else Forgotten(k, ch)
  {
    var h := RunOf(epoch, ops);
    StartOk(epoch);
    RunKeeps(Start(epoch), ops);
    LatestIsLastSend(epoch, ops, ch);
    RunSnoc(epoch, ops, Sweep(now, ttl));
    hide RunOf, Run, BufOk, LiveOk, LogOk;
    assert h.seqs.Keys == h.latest.Keys;
    hide Ok, Apply, Untouched, Forgotten;
    SweepStep(h, now, ttl, ch);
  }

  lemma SweepStep(h: Hub, now: int, ttl: int, ch: Channel)
    requires h.seqs.Keys == h.latest.Keys
    ensures var k := Apply(h, Sweep(now, ttl));
            if ch !in h.latest then Untouched(h, k, ch)
            else if now - h.latest[ch].ts < ttl || ch.Signal? || ch.State? || ch.Analyst? then Untouched(h, k, ch)
            else Forgotten(k, ch)
  {
  }

  // ----- Replay buffers -----

  /** Some client subscribes to the candle or indicator channel. */
  ghost predicate Listened(clients: map<nat, set<Sub>>, ch: Channel) {
    exists c, sub :: c in clients && sub in clients[c] && Matches(sub, ch)
  }

  ghost predicate Matches(sub: Sub, ch: Channel) {
    || (ch.Candle? && sub.symbol == ch.symbol && sub.tf == ch.tf)
    || (ch.Indicator? && sub.symbol == ch.symbol && (ch.name, ch.tf) in sub.entries)
  }

  lemma ListenedIsWanted(clients: map<nat, set<Sub>>, ch: Channel)
    ensures Listened(clients, ch) <==> AnyoneWants(clients, ch)
  {
    if c, sub :| c in clients && sub in clients[c] && Matches(sub, ch) {
      assert Covers(sub, ch);
      assert SubscribedTo(clients[c], ch);
    }
    if c :| c in clients && SubscribedTo(clients[c], ch) {
      var sub :| sub in clients[c] && Covers(sub, ch);
      assert Matches(sub, ch);
    }
  }

  /** Operation i sent on the channel, in its given life, while a client listened. */
  ghost predicate HeardAt(epoch: string, ops: seq<Op>, life: nat, i: nat, ch: Channel) {
    && i < |ops| && ops[i].Send? && ops[i].ch == ch && Listened(RunOf(epoch, ops[..i]).clients, ch)
    && LifeOf(RunOf(epoch, ops[..i]).lives, ch) == life
  }

  lemma HeardPrefix(epoch: string, ops: seq<Op>, op: Op, life: nat, ch: Channel)
    ensures forall i: nat :: i < |ops| ==> HeardAt(epoch, ops + [op], life, i, ch) == HeardAt(epoch, ops, life, i, ch)
    ensures HeardAt(epoch, ops + [op], life, |ops|, ch) <==>
            op.Send? && op.ch == ch && Listened(RunOf(epoch, ops).clients, ch) && LifeOf(RunOf(epoch, ops).lives, ch) == life
  {
    hide RunOf, Listened;
    assert (ops + [op])[..|ops|] == ops;
    forall i: nat | i < |ops| ensures HeardAt(epoch, ops + [op], life, i, ch) == HeardAt(epoch, ops, life, i, ch) {
      assert (ops + [op])[..i] == ops[..i] && (ops + [op])[i] == ops[i];
    }
  }

  /** No send is dated before an earlier one. */
  ghost predicate InTime(ops: seq<Op>) {
    forall i, j :: 0 <= i < j < |ops| && ops[i].Send? && ops[j].Send? ==> ops[i].now <= ops[j].now
  }

  /** Some later send came the grace period after operation i. */
  ghost predicate TooLate(ops: seq<Op>, i: nat) {
    exists j :: i < j < |ops| && ops[j].Send? && ops[i].Send? && ops[j].now - ops[i].now >= GRACE
  }

  lemma TooLateStays(ops: seq<Op>, op: Op, i: nat)
    requires TooLate(ops, i)
    ensures TooLate(ops + [op], i)
  {
    var j :| i < j < |ops| && ops[j].Send? && ops[i].Send? && ops[j].now - ops[i].now >= GRACE;
    assert (ops + [op])[j] == ops[j] && (ops + [op])[i] == ops[i];
  }

  /** The interest noted is the latest send of this life somebody listened to; when none is noted, each such send was
      followed by one that came too late. */
  ghost predicate InterestOk(epoch: string, ops: seq<Op>, h: Hub, ch: Channel) {
    var life := LifeOf(h.lives, ch);
    if ch in h.wantedAt then
      && (exists i: nat :: HeardAt(epoch, ops, life, i, ch) && ops[i].now == h.wantedAt[ch])
      && (forall i: nat :: HeardAt(epoch, ops, life, i, ch) ==> ops[i].now <= h.wantedAt[ch])
    else forall i: nat :: HeardAt(epoch, ops, life, i, ch) ==> TooLate(ops, i)
  }

  lemma {:induction false} LivesRise(epoch: string, ops: seq<Op>, i: nat, ch: Channel)
    requires i <= |ops|
    ensures LifeOf(RunOf(epoch, ops[..i]).lives, ch) <= LifeOf(RunOf(epoch, ops).lives, ch)
    decreases |ops|
  {
    hide RunOf;
    if i == |ops| {
      assert ops[..i] == ops;
    } else {
      var init, op := ops[..|ops| - 1], ops[|ops| - 1];
      assert init[..i] == ops[..i] && init + [op] == ops;
      LivesRise(epoch, init, i, ch);
      RunSnoc(epoch, init, op);
      LivesStep(RunOf(epoch, init), op, ch);
    }
  }

  lemma LivesStep(h: Hub, op: Op, ch: Channel)
    ensures LifeOf(Apply(h, op).lives, ch) ==
            LifeOf(h.lives, ch) + if op.Sweep? && ch in IdleSet(h.latest, op.now, op.ttl) then 1 else 0
  {
    if op.Send? { SendFrame(h, op.ch, op.data, op.now); }
    hide Broadcast, IdleSet;
  }

  /** An operation that neither sends on the channel nor evicts it leaves its interest as it is. */
  lemma OtherOp(h: Hub, op: Op, ch: Channel)
    requires !(op.Send? && op.ch == ch) && !(op.Sweep? && ch in IdleSet(h.latest, op.now, op.ttl))
    ensures SameAt(h.wantedAt, Apply(h, op).wantedAt, ch)
  {
    if op.Send? {
      SendFrame(h, op.ch, op.data, op.now);
      var k := Apply(h, op);
      hide Broadcast;
      assert ch in k.wantedAt <==> ch in k.wantedAt - {op.ch};
      assert ch in h.wantedAt <==> ch in h.wantedAt - {op.ch};
      assert ch in k.wantedAt ==> (k.wantedAt - {op.ch})[ch] == (h.wantedAt - {op.ch})[ch];
    }
    hide Broadcast, IdleSet;
  }

  lemma {:induction false} InterestHolds(epoch: string, ops: seq<Op>, ch: Channel)
    requires InTime(ops) && Timed(ch)
    ensures InterestOk(epoch, ops, RunOf(epoch, ops), ch)
  {
    hide RunOf, InterestOk;
    if ops == [] {
      NoInterest(epoch, ch);
    } else {
      var init, op := ops[..|ops| - 1], ops[|ops| - 1];
      assert init + [op] == ops;
      assert InTime(init);
      InterestHolds(epoch, init, ch);
      RunSnoc(epoch, init, op);
      var h := RunOf(epoch, init);
      HeardPrefix(epoch, init, op, LifeOf(Apply(h, op).lives, ch), ch);
      LivesStep(h, op, ch);
      if op.Send? && op.ch == ch {
        SendKeepsInterest(epoch, init, op, ch);
      } else if op.Sweep? && ch in IdleSet(h.latest, op.now, op.ttl) {
        SweepKeepsInterest(epoch, init, op, ch);
      } else {
        OtherKeepsInterest(epoch, init, op, ch);
      }
    }
  }

  lemma NoInterest(epoch: string, ch: Channel)
    ensures InterestOk(epoch, [], RunOf(epoch, []), ch)
  {
  }

  lemma OtherKeepsInterest(epoch: string, ops: seq<Op>, op: Op, ch: Channel)
    requires InterestOk(epoch, ops, RunOf(epoch, ops), ch)
    requires !(op.Send? && op.ch == ch) && !(op.Sweep? && ch in IdleSet(RunOf(epoch, ops).latest, op.now, op.ttl))
    ensures InterestOk(epoch, ops + [op], Apply(RunOf(epoch, ops), op), ch)
  {
    hide RunOf, HeardAt, TooLate, Apply;
    var h := RunOf(epoch, ops);
    var life, more := LifeOf(h.lives, ch), ops + [op];
    OtherOp(h, op, ch);
    LivesStep(h, op, ch);
    HeardPrefix(epoch, ops, op, life, ch);
    HeardWithin(epoch, ops, life, ch);
    HeardWithin(epoch, more, life, ch);
    if ch in h.wantedAt {
      var i: nat :| HeardAt(epoch, ops, life, i, ch) && ops[i].now == h.wantedAt[ch];
      assert HeardAt(epoch, more, life, i, ch) && more[i].now == h.wantedAt[ch];
    } else {
      forall i: nat | HeardAt(epoch, more, life, i, ch) ensures TooLate(more, i) { TooLateStays(ops, op, i); }
    }
  }

  lemma HeardWithin(epoch: string, ops: seq<Op>, life: nat, ch: Channel)
    ensures forall i: nat :: HeardAt(epoch, ops, life, i, ch) ==> i < |ops| && ops[i].Send? && ops[i].ch == ch
  {
  }

  lemma SweepKeepsInterest(epoch: string, ops: seq<Op>, op: Op, ch: Channel)
    requires op.Sweep? && ch in IdleSet(RunOf(epoch, ops).latest, op.now, op.ttl)
    ensures InterestOk(epoch, ops + [op], Apply(RunOf(epoch, ops), op), ch)
  {
    hide RunOf, IdleSet, Listened;
    var h, more := RunOf(epoch, ops), ops + [op];
    var life := LifeOf(Apply(h, op).lives, ch);
    LivesStep(h, op, ch);
    forall i: nat ensures !HeardAt(epoch, more, life, i, ch) {
      if i <= |ops| {
        assert more[..i] == ops[..i];
        LivesRise(epoch, ops, i, ch);
      }
    }
  }

  lemma SendKeepsInterest(epoch: string, ops: seq<Op>, op: Op, ch: Channel)
    requires InTime(ops + [op]) && Timed(ch) && InterestOk(epoch, ops, RunOf(epoch, ops), ch) && op.Send? && op.ch == ch
    ensures InterestOk(epoch, ops + [op], Apply(RunOf(epoch, ops), op), ch)
  {
    hide RunOf, HeardAt, TooLate, Broadcast, Listened, AnyoneWants;
    var h, more := RunOf(epoch, ops), ops + [op];
    var life := LifeOf(h.lives, ch);
    LivesStep(h, op, ch);
    HeardPrefix(epoch, ops, op, life, ch);
    HeardWithin(epoch, ops, life, ch);
    HeardWithin(epoch, more, life, ch);
    ListenedIsWanted(h.clients, ch);
    SendInterest(h, ch, op.data, op.now);
    assert more[|ops|] == op;
    if Listened(h.clients, ch) {
      assert HeardAt(epoch, more, life, |ops|, ch);
      forall i: nat | HeardAt(epoch, more, life, i, ch) ensures more[i].now <= op.now { }
    } else if ch in h.wantedAt && op.now - h.wantedAt[ch] < GRACE {
      var i: nat :| HeardAt(epoch, ops, life, i, ch) && ops[i].now == h.wantedAt[ch];
      assert HeardAt(epoch, more, life, i, ch) && more[i].now == h.wantedAt[ch];
    } else {
      forall i: nat | HeardAt(epoch, more, life, i, ch) ensures TooLate(more, i) {
        assert HeardAt(epoch, ops, life, i, ch);
        if ch in h.wantedAt { NowTooLate(ops, op, i); } else { TooLateStays(ops, op, i); }
      }
    }
  }

  lemma NowTooLate(ops: seq<Op>, op: Op, i: nat)
    requires i < |ops| && ops[i].Send? && op.Send? && op.now - ops[i].now >= GRACE
    ensures TooLate(ops + [op], i)
  {
    assert (ops + [op])[|ops|] == op && (ops + [op])[i] == ops[i];
  }

  /** After any history whose sends are dated in order, a send leaves its channel with a replay buffer exactly when the channel
      is neither ticks, candles nor indicators, or is candles or indicators and a client listens now or listened to a send of
      the channel's present life less than the grace period ago. */
  lemma KeptExact(epoch: string, ops: seq<Op>, ch: Channel, data: string, now: int)
    requires InTime(ops + [Send(ch, data, now)])
    ensures var h, k := RunOf(epoch, ops), RunOf(epoch, ops + [Send(ch, data, now)]);
            var life := LifeOf(h.lives, ch);
            ch in k.bufs <==>
            if ch.Candle? || ch.Indicator?
            then Listened(h.clients, ch) || exists i: nat :: HeardAt(epoch, ops, life, i, ch) && now - ops[i].now < GRACE
            else !ch.Tick?
  {
    hide Broadcast, Run, RunOf, HeardAt, Listened, AnyoneWants, InTime, BufOk, LiveOk, LogOk;
    var h, op := RunOf(epoch, ops), Send(ch, data, now);
    RunSnoc(epoch, ops, op);
    SendInterest(h, ch, data, now);
    if Timed(ch) {
      InTimePrefix(ops, op);
      InterestHolds(epoch, ops, ch);
      ListenedIsWanted(h.clients, ch);
      HeardWithin(epoch, ops, LifeOf(h.lives, ch), ch);
      hide TooLate;
      forall i: nat | HeardAt(epoch, ops, LifeOf(h.lives, ch), i, ch) && TooLate(ops, i) ensures now - ops[i].now >= GRACE {
        LateByNow(ops, op, i);
      }
    } else {
      NoTicks(epoch, ops, ch);
    }
  }

  lemma InTimePrefix(ops: seq<Op>, op: Op)
    requires InTime(ops + [op])
    ensures InTime(ops)
  {
    forall i, j | 0 <= i < j < |ops| && ops[i].Send? && ops[j].Send? ensures ops[i].now <= ops[j].now {
      assert (ops + [op])[i] == ops[i] && (ops + [op])[j] == ops[j];
    }
  }

  lemma LateByNow(ops: seq<Op>, op: Op, i: nat)
    requires InTime(ops + [op]) && op.Send? && i < |ops| && ops[i].Send? && TooLate(ops, i)
    ensures op.now - ops[i].now >= GRACE
  {
    var j :| i < j < |ops| && ops[j].Send? && ops[j].now - ops[i].now >= GRACE;
    assert (ops + [op])[j] == ops[j] && (ops + [op])[|ops|] == op;
  }

  lemma NoTicks(epoch: string, ops: seq<Op>, ch: Channel)
    ensures ch.Tick? ==> ch !in RunOf(epoch, ops).bufs
  {
    StartOk(epoch);
    RunKeeps(Start(epoch), ops);
    NoTickBuffer(RunOf(epoch, ops), ch);
  }

  // ----- Clients, latest values and buffers that are always kept -----

  /** The subscriptions of client id: none connected, or what was set last since it connected. */
  function SubsAfter(ops: seq<Op>, id: nat): Option<set<Sub>> {
    if ops == [] then None
    else
      var was, op := SubsAfter(ops[..|ops| - 1], id), ops[|ops| - 1];
      if op == Connect(id) then Some({})
      else if op == Disconnect(id) then None
      else if op.SetSubs? && op.id == id && was.Some? then Some(op.subs)
      else was
  }

  lemma {:induction false} ClientsAre(epoch: string, ops: seq<Op>, id: nat)
    ensures var clients := RunOf(epoch, ops).clients;
            if id in clients then SubsAfter(ops, id) == Some(clients[id]) else SubsAfter(ops, id) == None
  {
    hide Broadcast, Evict;
    if ops != [] {
      hide Apply, RunOf;
      var init, op := ops[..|ops| - 1], ops[|ops| - 1];
      assert init + [op] == ops;
      ClientsAre(epoch, init, id);
      RunSnoc(epoch, init, op);
      ClientStep(RunOf(epoch, init), op, id);
    } else {
      assert RunOf(epoch, []) == Start(epoch);
    }
  }

  lemma ClientStep(h: Hub, op: Op, id: nat)
    ensures var k := Apply(h, op);
            if op == Connect(id) then id in k.clients && k.clients[id] == {}
            else if op == Disconnect(id) then id !in k.clients
            else if op.SetSubs? && op.id == id && id in h.clients then id in k.clients && k.clients[id] == op.subs
            else SameAt(h.clients, k.clients, id)
  {
    if op.Send? { SendFrame(h, op.ch, op.data, op.now); }
    hide Broadcast, IdleSet;
  }

  /** The data of the last send on the channel. */
  function LastData(ops: seq<Op>, ch: Channel): string {
    if ops == [] then ""
    else
      var op := ops[|ops| - 1];
      if op.Send? && op.ch == ch then op.data else LastData(ops[..|ops| - 1], ch)
  }

  /** A channel's latest value is what was sent last on it, under its current number. */
  lemma {:induction false} LatestIsLastData(epoch: string, ops: seq<Op>, ch: Channel)
    ensures var h := RunOf(epoch, ops);
            ch in h.latest ==> h.latest[ch].data == LastData(ops, ch) && ch in h.seqs && h.latest[ch].seqno == h.seqs[ch]
  {
    hide Broadcast, Evict;
    if ops != [] {
      var init, op := ops[..|ops| - 1], ops[|ops| - 1];
      assert init + [op] == ops;
      LatestIsLastData(epoch, init, ch);
      RunSnoc(epoch, init, op);
      hide RunOf;
      LatestStep(RunOf(epoch, init), op, ch);
      DataStep(RunOf(epoch, init), op, ch);
    }
  }

  lemma DataStep(h: Hub, op: Op, ch: Channel)
    requires ch in h.latest ==> ch in h.seqs && h.latest[ch].seqno == h.seqs[ch]
    ensures var k := Apply(h, op);
            ch in k.latest ==>
              && ch in k.seqs && k.latest[ch].seqno == k.seqs[ch]
              && (op.Send? && op.ch == ch ==> k.latest[ch].data == op.data)
  {
    if op.Send? { SendFrame(h, op.ch, op.data, op.now); }
    hide Broadcast, IdleSet;
  }

  /** The buffer of the channel holds the last envelopes of its life: all of them, or as many as it can. */
  predicate FullAt(h: Hub, ch: Channel) {
    ch in h.bufs && h.bufs[ch] < |h.pool| && ch in h.seqs && |h.pool[h.bufs[ch]].list| == Min(h.seqs[ch], CAP)
  }

  /** A channel that is neither a tick's nor kept for its listeners always has all its envelopes of this life to replay, up to the last
      CAP. */
  lemma {:induction false} AlwaysFull(epoch: string, ops: seq<Op>, ch: Channel)
    requires !ch.Tick? && !Timed(ch)
    ensures var h := RunOf(epoch, ops); ch in h.seqs <==> ch in h.bufs
    ensures ch in RunOf(epoch, ops).bufs ==> FullAt(RunOf(epoch, ops), ch)
  {
    hide Broadcast, Evict, FullAt;
    if ops != [] {
      var init, op := ops[..|ops| - 1], ops[|ops| - 1];
      assert init + [op] == ops;
      AlwaysFull(epoch, init, ch);
      RunSnoc(epoch, init, op);
      StartOk(epoch);
      RunKeeps(Start(epoch), init);
      hide RunOf, Run, Ok;
      FullStep(RunOf(epoch, init), op, ch);
    }
  }

  lemma FullStep(h: Hub, op: Op, ch: Channel)
    requires Ok(h) && !ch.Tick? && !Timed(ch) && (ch in h.seqs <==> ch in h.bufs) && (ch in h.bufs ==> FullAt(h, ch))
    ensures var k := Apply(h, op); (ch in k.seqs <==> ch in k.bufs) && (ch in k.bufs ==> FullAt(k, ch))
  {
    hide Broadcast, IdleSet, LogOk, BufOk;
    if op.Send? {
      if op.ch == ch { FullSend(h, ch, op.data, op.now); } else { FullElsewhere(h, op.ch, op.data, op.now, ch); }
    }
  }

  lemma FullSend(h: Hub, ch: Channel, data: string, now: int)
    requires Ok(h) && !ch.Tick? && !Timed(ch) && (ch in h.seqs <==> ch in h.bufs) && (ch in h.bufs ==> FullAt(h, ch))
    ensures var k := Broadcast(h, ch, data, now); ch in k.seqs && ch in k.bufs && FullAt(k, ch)
  {
    hide LogOk, BufOk, LiveOk, AnyoneWants, RB.Pushed;
    SendFrame(h, ch, data, now);
  }

  lemma FullElsewhere(h: Hub, c: Channel, data: string, now: int, ch: Channel)
    requires Ok(h) && c != ch && (ch in h.bufs ==> FullAt(h, ch))
    ensures var k := Broadcast(h, c, data, now);
            (ch in k.seqs <==> ch in h.seqs) && (ch in k.bufs <==> ch in h.bufs) && (ch in k.bufs ==> FullAt(k, ch))
  {
    hide LogOk, BufOk, Keeps, KeepReplay, PushTo;
    SendFrame(h, c, data, now);
    var a := Number(h, c, data, now);
    var k := KeepReplay(a, c, now);
    KeepElsewhere(a, c, now, ch);
    PushElsewhere(k, c, NextEnvelope(h, c, data), ch) by {
      assert ch in h.bufs ==> LiveOk(h, ch);
      assert c in h.bufs ==> LiveOk(h, c);
    }
  }

  lemma KeepElsewhere(a: Hub, c: Channel, now: int, ch: Channel)
    requires c != ch
    ensures var k := KeepReplay(a, c, now);
            k.pool == a.pool && SameAt(k.bufs, a.bufs, ch) && (c in k.bufs ==> c in a.bufs && k.bufs[c] == a.bufs[c])
  {
    hide AnyoneWants, WantedLately, SameAt;
    WithoutOne(a.bufs, c, ch);
    SameSelf(a.bufs, ch);
  }

  lemma WithoutOne(m: map<Channel, nat>, c: Channel, ch: Channel)
    requires c != ch
    ensures SameAt(m - {c}, m, ch) && c !in m - {c}
  {
  }

  lemma SameSelf(m: map<Channel, nat>, ch: Channel)
    ensures SameAt(m, m, ch)
  {
  }

  lemma PushElsewhere(k: Hub, c: Channel, e: Envelope, ch: Channel)
    requires c != ch && (ch in k.bufs ==> k.bufs[ch] < |k.pool|)
    requires ch in k.bufs && c in k.bufs ==> k.bufs[ch] != k.bufs[c]
    ensures var p := PushTo(k, c, e);
            && SameAt(p.bufs, k.bufs, ch) && |p.pool| >= |k.pool|
            && (ch in k.bufs ==> k.bufs[ch] < |p.pool| && p.pool[k.bufs[ch]] == k.pool[k.bufs[ch]])
  {
    hide RB.Pushed;
  }
}
