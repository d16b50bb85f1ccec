/** The gateway hub: channel sequence numbers, replay buffers created and dropped with interest, idle eviction, and
    gap backfill that says whether it is complete. */
module Hub {
  import opened Common
  import RB = ReplayBuffer

  datatype Channel =
    | Tick(token: string)
    | Candle(tf: int, symbol: string)
    | Indicator(name: string, tf: int, symbol: string)
    | Signal
    | State(name: string)
    | Analyst(key: string)
    | Other(name: string)

  /** A client's subscription: a symbol's candles of one timeframe, and its indicators by name and timeframe. */
  datatype Sub = Sub(symbol: string, tf: int, entries: set<(string, int)>)

  /** life counts how often the channel was evicted before; it belongs to the model, not to the envelope. */
  datatype Body = Body(life: nat, epoch: string, data: string)

  type Envelope = RB.Entry<Body>

  const CAP: nat := 500
  const GRACE := 120_000_000_000

  /** A replay buffer that was ever created, live or dropped, as the list its ring stands for. */
  datatype Buf = Buf(channel: Channel, life: nat, list: seq<Envelope>)

  datatype Latest = Latest(data: string, ts: int, seqno: int)

  /** bufs names the live buffer of a channel by its place in pool. lives and log belong to the model: how often each
      channel was evicted, and every envelope sent. */
  datatype Hub = Hub(epoch: string, seqs: map<Channel, int>, latest: map<Channel, Latest>, bufs: map<Channel, nat>,
                     pool: seq<Buf>, wantedAt: map<Channel, int>, clients: map<nat, set<Sub>>,
                     lives: map<Channel, nat>, log: seq<(Channel, Envelope)>)

  function Start(epoch: string): Hub { Hub(epoch, map[], map[], map[], [], map[], map[], map[], []) }

  predicate IsSticky(ch: Channel) { ch.Signal? || ch.State? || ch.Analyst? }

  function LifeOf(lives: map<Channel, nat>, ch: Channel): nat { if ch in lives then lives[ch] else 0 }

  function SeqOf(h: Hub, ch: Channel): int { if ch in h.seqs then h.seqs[ch] else 0 }

  // ----- Which channels keep a buffer -----

  predicate Covers(sub: Sub, ch: Channel) {
    match ch
    case Candle(tf, symbol) => sub.symbol == symbol && sub.tf == tf
    case Indicator(name, tf, symbol) => sub.symbol == symbol && (name, tf) in sub.entries
    case _ => false
  }

  predicate SubscribedTo(subs: set<Sub>, ch: Channel) { exists s :: s in subs && Covers(s, ch) }

  predicate AnyoneWants(clients: map<nat, set<Sub>>, ch: Channel) {
    exists c :: c in clients && SubscribedTo(clients[c], ch)
  }

  predicate WantedLately(wantedAt: map<Channel, int>, ch: Channel, now: int) {
    ch in wantedAt && now - wantedAt[ch] < GRACE
  }

  /** Ticks never; candles and indicators while wanted; everything else always. */
  predicate Keeps(h: Hub, ch: Channel, now: int) {
    if ch.Tick? then false
    else if ch.Candle? || ch.Indicator? then AnyoneWants(h.clients, ch) || WantedLately(h.wantedAt, ch, now)
    else true
  }

  /** The hub after the keep decision for one envelope: interest noted, or the unwanted buffer dropped. */
  function KeepReplay(h: Hub, ch: Channel, now: int): Hub {
    if !ch.Candle? && !ch.Indicator? then h
    else if AnyoneWants(h.clients, ch) then h.(wantedAt := h.wantedAt[ch := now])
    else if WantedLately(h.wantedAt, ch, now) then h
    else h.(wantedAt := h.wantedAt - {ch}, bufs := h.bufs - {ch})
  }

  // ----- The steps -----

  function PushTo(h: Hub, ch: Channel, e: Envelope): Hub {
    if ch in h.bufs && h.bufs[ch] < |h.pool| then
      var b := h.pool[h.bufs[ch]];
      h.(pool := h.pool[h.bufs[ch] := b.(list := RB.Pushed(b.list, e, CAP))])
    else h.(bufs := h.bufs[ch := |h.pool|], pool := h.pool + [Buf(ch, LifeOf(h.lives, ch), RB.Pushed([], e, CAP))])
  }

  /** The envelope with the channel's next number. */
  function NextEnvelope(h: Hub, ch: Channel, data: string): Envelope {
    RB.Entry(SeqOf(h, ch) + 1, Body(LifeOf(h.lives, ch), h.epoch, data))
  }

  /** The hub once the envelope is numbered. */
  function Number(h: Hub, ch: Channel, data: string, now: int): Hub {
    var e := NextEnvelope(h, ch, data);
    h.(seqs := h.seqs[ch := e.seqno], latest := h.latest[ch := Latest(data, now, e.seqno)], log := h.log + [(ch, e)])
  }

  function Broadcast(h: Hub, ch: Channel, data: string, now: int): Hub {
    var a := Number(h, ch, data, now);
    var k := KeepReplay(a, ch, now);
    if Keeps(a, ch, now) then PushTo(k, ch, NextEnvelope(h, ch, data)) else k
  }

  predicate Idle(l: Latest, ch: Channel, now: int, ttl: int) { !IsSticky(ch) && now - l.ts >= ttl }

  function IdleSet(latest: map<Channel, Latest>, now: int, ttl: int): set<Channel> {
    set ch | ch in latest && Idle(latest[ch], ch, now, ttl)
  }

  function Evict(h: Hub, gone: set<Channel>): Hub {
    h.(latest := h.latest - gone, seqs := h.seqs - gone, bufs := h.bufs - gone, wantedAt := h.wantedAt - gone,
       lives := h.lives + map ch | ch in gone :: LifeOf(h.lives, ch) + 1)
  }

  /** One step of the gateway. SetSubs is any change of one client's subscriptions; a bump brings any new epoch. */
  datatype Op =
    | Send(ch: Channel, data: string, now: int)
    | Connect(id: nat)
    | Disconnect(id: nat)
    | SetSubs(id: nat, subs: set<Sub>)
    | Sweep(now: int, ttl: int)
    | Bump(epoch: string)

  function Apply(h: Hub, op: Op): Hub {
    match op
    case Send(ch, data, now) => Broadcast(h, ch, data, now)
    case Connect(id) => h.(clients := h.clients[id := {}])
    case Disconnect(id) => h.(clients := h.clients - {id})
    case SetSubs(id, subs) => if id in h.clients then h.(clients := h.clients[id := subs]) else h
    case Sweep(now, ttl) => Evict(h, IdleSet(h.latest, now, ttl))
    case Bump(epoch) => h.(epoch := epoch)
  }

  function Run(h: Hub, ops: seq<Op>): Hub {
    if ops == [] then h else Apply(Run(h, ops[..|ops| - 1]), ops[|ops| - 1])
  }

  // ----- What every run keeps -----

  /** A buffer holds at most CAP consecutive envelopes of one channel and life, all of them sent. */
  predicate BufOk(b: Buf, log: seq<(Channel, Envelope)>) {
    && 1 <= |b.list| <= CAP && RB.Contiguous(b.list) && b.list[0].seqno >= 1
    && forall e :: e in b.list ==> e.data.life == b.life && (b.channel, e) in log
  }

  /** A live buffer ends at its channel's current number. */
  predicate LiveOk(h: Hub, ch: Channel) {
    && ch in h.bufs && h.bufs[ch] < |h.pool| && ch in h.seqs && !ch.Tick?
    && var b := h.pool[h.bufs[ch]];
       b.channel == ch && b.life == LifeOf(h.lives, ch) && b.list != [] && b.list[|b.list| - 1].seqno == h.seqs[ch]
  }

  /** Every channel's numbers count up from 1 within one life, none twice. */
  predicate LogOk(h: Hub) {
    && (forall i :: 0 <= i < |h.log| ==>
          var (ch, e) := h.log[i];
          && e.data.life <= LifeOf(h.lives, ch)
          && (e.data.life == LifeOf(h.lives, ch) ==> ch in h.seqs && 1 <= e.seqno <= h.seqs[ch]))
    && forall i, j :: 0 <= i < j < |h.log| && h.log[i].0 == h.log[j].0 && h.log[i].1.data.life == h.log[j].1.data.life ==>
         h.log[i].1.seqno < h.log[j].1.seqno
  }

  predicate Ok(h: Hub) {
    && h.seqs.Keys == h.latest.Keys && (forall ch :: ch in h.seqs ==> h.seqs[ch] >= 1)
    && (forall i :: 0 <= i < |h.pool| ==> BufOk(h.pool[i], h.log))
    && (forall ch :: ch in h.bufs ==> LiveOk(h, ch))
    && LogOk(h)
  }

  lemma StartOk(epoch: string)
    ensures Ok(Start(epoch))
  {
  }

  lemma PushedOk(b: Buf, e: Envelope, log: seq<(Channel, Envelope)>)
    requires BufOk(b, log) && e.seqno == b.list[|b.list| - 1].seqno + 1 && e.data.life == b.life
    ensures BufOk(b.(list := RB.Pushed(b.list, e, CAP)), log + [(b.channel, e)])
  {
    RB.PushContiguous(b.list, e, CAP);
    RB.ContiguousAt(b.list, |b.list| - 1);
    var r := RB.Pushed(b.list, e, CAP);
    forall x | x in r ensures x == e || x in b.list {
    }
    assert |b.list| == CAP ==> r[0].seqno >= 1;
  }

  lemma BufGrows(b: Buf, log: seq<(Channel, Envelope)>, x: (Channel, Envelope))
    requires BufOk(b, log)
    ensures BufOk(b, log + [x])
  {
  }

  /** a is h after numbering e: everything but the live buffer of its channel is right. */
  predicate Numbered(h: Hub, a: Hub, ch: Channel, e: Envelope) {
    && LogOk(a) && a.seqs.Keys == a.latest.Keys && (forall c :: c in a.seqs ==> a.seqs[c] >= 1)
    && (forall i :: 0 <= i < |a.pool| ==> BufOk(a.pool[i], a.log))
    && (forall c :: c in a.bufs && c != ch ==> LiveOk(a, c))
    && a.pool == h.pool && a.bufs == h.bufs && a.lives == h.lives && a.log == h.log + [(ch, e)]
    && e.data.life == LifeOf(h.lives, ch) && e.seqno == SeqOf(h, ch) + 1 && ch in a.seqs && a.seqs[ch] == e.seqno
  }

  lemma NumberKeeps(h: Hub, ch: Channel, data: string, now: int)
    requires Ok(h)
    ensures Numbered(h, Number(h, ch, data, now), ch, NextEnvelope(h, ch, data))
  {
    hide BufOk;
    var a, e := Number(h, ch, data, now), NextEnvelope(h, ch, data);
    forall i | 0 <= i < |h.pool| ensures BufOk(h.pool[i], a.log) { BufGrows(h.pool[i], h.log, (ch, e)); }
    forall c | c in h.bufs && c != ch ensures LiveOk(a, c) { assert LiveOk(h, c); }
  }

  /** Replacing the live buffer of ch by one that ends at its current number. */
  lemma PoolReplaced(h: Hub, k: Hub, ch: Channel, e: Envelope, b: Buf)
    requires PushReady(h, k, ch, e) && ch in k.bufs && k.bufs[ch] < |k.pool| && k.pool[k.bufs[ch]].channel == ch && !ch.Tick?
    requires BufOk(b, k.log) && b.channel == ch && b.life == LifeOf(k.lives, ch) && b.list != []
    requires b.list[|b.list| - 1].seqno == e.seqno
    ensures Ok(k.(pool := k.pool[k.bufs[ch] := b]))
  {
    hide LogOk, BufOk;
    var r := k.(pool := k.pool[k.bufs[ch] := b]);
    forall c | c in r.bufs ensures LiveOk(r, c) {
      if c != ch { LiveElsewhere(k, c, ch, b); }
    }
    LogOkOf(k, r);
  }

  /** Pushing onto the live buffer of ch. */
  lemma PushLive(h: Hub, k: Hub, ch: Channel, e: Envelope)
    requires PushReady(h, k, ch, e) && ch in k.bufs && ch in h.bufs && k.bufs[ch] == h.bufs[ch] && Ok(h)
    ensures Ok(PushTo(k, ch, e))
  {
    hide LogOk, PushTo;
    assert LiveOk(h, ch);
    var b := h.pool[k.bufs[ch]];
    assert BufOk(b, h.log);
    hide Ok;
    PushedOk(b, e, h.log);
    PushToIs(k, ch, e);
    hide BufOk;
    PoolReplaced(h, k, ch, e, b.(list := RB.Pushed(b.list, e, CAP)));
  }

  lemma PushToIs(k: Hub, ch: Channel, e: Envelope)
    requires ch in k.bufs && k.bufs[ch] < |k.pool|
    ensures var b := k.pool[k.bufs[ch]];
            PushTo(k, ch, e) == k.(pool := k.pool[k.bufs[ch] := b.(list := RB.Pushed(b.list, e, CAP))])
  {
  }

  /** A live buffer of one channel does not see another's being pushed to. */
  lemma LiveElsewhere(k: Hub, c: Channel, ch: Channel, b: Buf)
    requires LiveOk(k, c) && ch in k.bufs && k.bufs[ch] < |k.pool| && k.pool[k.bufs[ch]].channel == ch != c
    ensures LiveOk(k.(pool := k.pool[k.bufs[ch] := b]), c)
  {
  }

  /** Giving ch a new buffer that ends at its current number. */
  lemma PoolExtended(h: Hub, k: Hub, ch: Channel, e: Envelope, b: Buf)
    requires PushReady(h, k, ch, e) && ch !in k.bufs && !ch.Tick?
    requires BufOk(b, k.log) && b.channel == ch && b.life == LifeOf(k.lives, ch) && b.list == [e]
    ensures Ok(k.(bufs := k.bufs[ch := |k.pool|], pool := k.pool + [b]))
  {
    hide LogOk, BufOk;
    var r := k.(bufs := k.bufs[ch := |k.pool|], pool := k.pool + [b]);
    forall c | c in r.bufs ensures LiveOk(r, c) {
      if c != ch { assert LiveOk(k, c); }
    }
    LogOkOf(k, r);
  }

  /** The first envelope of a new buffer. */
  lemma PushNew(h: Hub, k: Hub, ch: Channel, e: Envelope)
    requires PushReady(h, k, ch, e) && ch !in k.bufs && !ch.Tick?
    ensures Ok(PushTo(k, ch, e))
  {
    var b := Buf(ch, LifeOf(k.lives, ch), RB.Pushed([], e, CAP));
    assert b.list == [e];
    assert BufOk(b, k.log) by { assert (ch, e) in k.log; }
    hide BufOk, LogOk, LiveOk, Ok;
    PoolExtended(h, k, ch, e, b);
  }

  /** k is h after numbering e and deciding to keep it, before the push. */
  predicate PushReady(h: Hub, k: Hub, ch: Channel, e: Envelope) {
    && LogOk(k) && k.seqs.Keys == k.latest.Keys && (forall c :: c in k.seqs ==> k.seqs[c] >= 1)
    && (forall i :: 0 <= i < |k.pool| ==> BufOk(k.pool[i], k.log))
    && (forall c :: c in k.bufs && c != ch ==> LiveOk(k, c))
    && k.pool == h.pool && k.lives == h.lives && k.log == h.log + [(ch, e)]
    && e.data.life == LifeOf(h.lives, ch) && e.seqno == SeqOf(h, ch) + 1 && ch in k.seqs && k.seqs[ch] == e.seqno
  }

  lemma LogOkOf(h: Hub, k: Hub)
    requires LogOk(h) && h.log == k.log && h.lives == k.lives && h.seqs == k.seqs
    ensures LogOk(k)
  {
  }

  /** The keep decision touches nothing but interest and the channel's own live buffer. */
  lemma KeepFrame(a: Hub, ch: Channel, now: int)
    requires forall c :: c in a.bufs && c != ch ==> LiveOk(a, c)
    ensures var k := KeepReplay(a, ch, now);
            && k == a.(wantedAt := k.wantedAt, bufs := k.bufs)
            && (forall c :: c in k.bufs ==> c in a.bufs && k.bufs[c] == a.bufs[c])
            && (forall c :: c in k.bufs && c != ch ==> LiveOk(k, c))
            && (!ch.Tick? && !Keeps(a, ch, now) ==> ch !in k.bufs)
  {
    hide AnyoneWants, WantedLately, LiveOk;
    var k := KeepReplay(a, ch, now);
    assert k == a.(wantedAt := k.wantedAt, bufs := k.bufs);
    forall c | c in k.bufs && c != ch ensures LiveOk(k, c) { LiveFrame(a, k, c); }
  }

  lemma LiveFrame(a: Hub, k: Hub, c: Channel)
    requires LiveOk(a, c) && c in k.bufs && k.bufs[c] == a.bufs[c]
    requires k.pool == a.pool && k.seqs == a.seqs && k.lives == a.lives
    ensures LiveOk(k, c)
  {
  }

  lemma SendKeeps(h: Hub, ch: Channel, data: string, now: int)
    requires Ok(h)
    ensures Ok(Broadcast(h, ch, data, now))
  {
    NumberKeeps(h, ch, data, now);
    NoTickBuffer(h, ch);
    hide Number, NextEnvelope, Numbered, Ok, KeepReplay, PushTo, Keeps;
    KeepOrDrop(h, Number(h, ch, data, now), ch, NextEnvelope(h, ch, data), now);
  }

  lemma NoTickBuffer(h: Hub, ch: Channel)
    requires Ok(h)
    ensures ch.Tick? ==> ch !in h.bufs
  {
    assert ch in h.bufs ==> LiveOk(h, ch);
  }

  lemma KeepOrDrop(h: Hub, a: Hub, ch: Channel, e: Envelope, now: int)
    requires Ok(h) && Numbered(h, a, ch, e) && (ch.Tick? ==> ch !in h.bufs)
    ensures Ok(if Keeps(a, ch, now) then PushTo(KeepReplay(a, ch, now), ch, e) else KeepReplay(a, ch, now))
  {
    hide KeepReplay, BufOk, Keeps, PushTo, LogOk, LiveOk;
    KeepFrame(a, ch, now);
    var k := KeepReplay(a, ch, now);
    LogOkOf(a, k);
    TicksAreNotKept(a, ch, now);
    if Keeps(a, ch, now) {
      assert PushReady(h, k, ch, e);
      hide PushReady, Numbered;
      if ch in k.bufs { PushLive(h, k, ch, e); } else { PushNew(h, k, ch, e); }
    }
  }

  lemma TicksAreNotKept(h: Hub, ch: Channel, now: int)
    ensures Keeps(h, ch, now) ==> !ch.Tick?
  {
  }

  lemma SweepKeeps(h: Hub, gone: set<Channel>)
    requires Ok(h)
    ensures Ok(Evict(h, gone))
  {
    hide BufOk;
    var k := Evict(h, gone);
    assert forall ch :: LifeOf(k.lives, ch) == LifeOf(h.lives, ch) + if ch in gone then 1 else 0;
    forall ch | ch in k.bufs ensures LiveOk(k, ch) { assert LiveOk(h, ch); }
    assert LogOk(k);
  }

  /** Clients, subscriptions and the epoch play no part. */
  lemma SameCore(h: Hub, k: Hub)
    requires Ok(h) && k == h.(clients := k.clients, epoch := k.epoch)
    ensures Ok(k)
  {
    hide BufOk;
    forall ch | ch in k.bufs ensures LiveOk(k, ch) { assert LiveOk(h, ch); }
    hide LiveOk;
    LogOkOf(h, k);
  }

  lemma ApplyKeeps(h: Hub, op: Op)
    requires Ok(h)
    ensures Ok(Apply(h, op))
  {
    hide Ok, Broadcast, Evict;
    match op
    case Send(ch, data, now) => SendKeeps(h, ch, data, now);
    case Sweep(now, ttl) => SweepKeeps(h, IdleSet(h.latest, now, ttl));
    case _ => SameCore(h, Apply(h, op));
  }

  lemma {:induction false} RunKeeps(h: Hub, ops: seq<Op>)
    requires Ok(h)
    ensures Ok(Run(h, ops))
  {
    hide Ok, Apply;
    if ops != [] {
      RunKeeps(h, ops[..|ops| - 1]);
      ApplyKeeps(Run(h, ops[..|ops| - 1]), ops[|ops| - 1]);
    }
  }

  /** A buffer a reader holds keeps its channel and life whatever happens to the hub. */
  predicate Grows(pool: seq<Buf>, more: seq<Buf>) {
    |pool| <= |more| && forall i :: 0 <= i < |pool| ==> more[i].channel == pool[i].channel && more[i].life == pool[i].life
  }

  lemma PoolGrows(h: Hub, op: Op)
    ensures Grows(h.pool, Apply(h, op).pool)
  {
    if op.Send? {
      SendGrows(h, op.ch, op.data, op.now);
    } else {
      hide Broadcast, IdleSet;
    }
  }

  lemma SendGrows(h: Hub, ch: Channel, data: string, now: int)
    ensures Grows(h.pool, Broadcast(h, ch, data, now).pool)
  {
    hide Keeps, PushTo, KeepReplay, Grows, NextEnvelope;
    var a := Number(h, ch, data, now);
    KeepPool(a, ch, now);
    PushGrows(KeepReplay(a, ch, now), ch, NextEnvelope(h, ch, data));
    GrowsSelf(h.pool);
  }

  lemma GrowsSelf(pool: seq<Buf>)
    ensures Grows(pool, pool)
  {
  }

  lemma KeepPool(a: Hub, ch: Channel, now: int)
    ensures KeepReplay(a, ch, now).pool == a.pool
  {
    hide AnyoneWants, WantedLately;
  }

  lemma PushGrows(k: Hub, ch: Channel, e: Envelope)
    ensures Grows(k.pool, PushTo(k, ch, e).pool)
  {
  }

  lemma {:induction false} RunGrows(h: Hub, ops: seq<Op>)
    ensures Grows(h.pool, Run(h, ops).pool)
  {
    if ops != [] {
      hide Apply;
      RunGrows(h, ops[..|ops| - 1]);
      PoolGrows(Run(h, ops[..|ops| - 1]), ops[|ops| - 1]);
    }
  }

  // ----- Gap backfill -----

  /** What one locked read of the hub gives a backfill request. */
  datatype Read = Read(buf: Option<nat>, epoch: string, current: int)

  datatype Missed = Missed(epoch: string, current: int, oldest: int, messages: seq<Envelope>, complete: bool)

  function BeginMissed(h: Hub, ch: Channel): Read {
    Read(if ch in h.bufs then Some(h.bufs[ch]) else None, h.epoch, SeqOf(h, ch))
  }

  function ListAt(h: Hub, id: nat): seq<Envelope> { if id < |h.pool| then h.pool[id].list else [] }

  function OldestOf(list: seq<Envelope>): int { if list == [] then 0 else list[0].seqno }

  /** The rest of the request: the oldest number is read in hub state a, the range in hub state b. */
  function FinishMissed(r: Read, a: Hub, b: Hub, from: int, to: int, clientEpoch: string): Missed {
    if r.buf.None? then Missed(r.epoch, r.current, 0, [], false)
    else
      var messages := RB.InRange(ListAt(b, r.buf.value), from, to);
      Missed(r.epoch, r.current, OldestOf(ListAt(a, r.buf.value)), messages,
             (clientEpoch == "" || clientEpoch == r.epoch) && to >= from && |messages| == to - from + 1)
  }

  /** messages are the sent envelopes of ch numbered from..to, once each, in order, all of one life of the channel. */
  predicate ExactRange(messages: seq<Envelope>, ch: Channel, from: int, to: int, log: seq<(Channel, Envelope)>) {
    && |messages| == to - from + 1
    && forall i :: 0 <= i < |messages| ==>
         messages[i].seqno == from + i && messages[i].data.life == messages[0].data.life && (ch, messages[i]) in log
  }

  lemma BufferRange(b: Buf, log: seq<(Channel, Envelope)>, from: int, to: int)
    requires BufOk(b, log) && from <= to && |RB.InRange(b.list, from, to)| == to - from + 1
    ensures ExactRange(RB.InRange(b.list, from, to), b.channel, from, to, log)
  {
    RB.RangeFull(b.list, from, to);
    var r := RB.InRange(b.list, from, to);
    forall i | 0 <= i < |r| ensures r[i].data.life == b.life && (b.channel, r[i]) in log { assert r[i] in b.list; }
  }

  /** Whatever the gateway does before, between and after the reads of a request: an answer marked complete holds exactly
      the envelopes from..to of the channel. */
  lemma CompleteIsExact(epoch: string, before: seq<Op>, between: seq<Op>, after: seq<Op>, ch: Channel, from: int, to: int,
                        clientEpoch: string)
    ensures var h := Run(Start(epoch), before);
            var a := Run(h, between);
            var b := Run(a, after);
            var m := FinishMissed(BeginMissed(h, ch), a, b, from, to, clientEpoch);
            m.complete ==> ExactRange(m.messages, ch, from, to, b.log) && from <= to && clientEpoch in {"", h.epoch}
  {
    var h := Run(Start(epoch), before);
    var a := Run(h, between);
    var b := Run(a, after);
    StartOk(epoch);
    RunKeeps(Start(epoch), before);
    RunKeeps(h, between);
    RunKeeps(a, after);
    RunGrows(h, between);
    RunGrows(a, after);
    hide Run, BufOk, LogOk, ExactRange, RB.InRange;
    var m := FinishMissed(BeginMissed(h, ch), a, b, from, to, clientEpoch);
    if m.complete {
      assert LiveOk(h, ch);
      BufferRange(b.pool[h.bufs[ch]], b.log, from, to);
    }
  }

  /** With nothing happening during the request, it is complete exactly when the epoch fits and the range is non-empty and
      lies between the oldest buffered number and the current one. */
  lemma CompleteWhenBuffered(h: Hub, ch: Channel, from: int, to: int, clientEpoch: string)
    requires Ok(h)
    ensures var m := FinishMissed(BeginMissed(h, ch), h, h, from, to, clientEpoch);
            && (m.complete <==> clientEpoch in {"", h.epoch} && ch in h.bufs && m.oldest <= from <= to <= m.current)
            && (m.complete ==> ExactRange(m.messages, ch, from, to, h.log) && m.messages[0].data.life == LifeOf(h.lives, ch))
  {
    hide LogOk, RB.InRange, ExactRange;
    if ch in h.bufs {
      assert LiveOk(h, ch);
      var b := h.pool[h.bufs[ch]];
      if from <= to {
        RB.RangeFull(b.list, from, to);
        var r := RB.InRange(b.list, from, to);
        if |r| == to - from + 1 {
          BufferRange(b, h.log, from, to);
          assert r[0] in b.list;
        }
      }
    }
  }

  /** A channel's log numbers are never reused within a life, so an exact range is the only one of its life. */
  lemma RangeIsUnique(h: Hub, ch: Channel, from: int, to: int, m: seq<Envelope>, n: seq<Envelope>)
    requires LogOk(h) && ExactRange(m, ch, from, to, h.log) && ExactRange(n, ch, from, to, h.log)
    requires m != [] && m[0].data.life == n[0].data.life
    ensures m == n
  {
    forall i | 0 <= i < |m| ensures m[i] == n[i] {
      var x :| 0 <= x < |h.log| && h.log[x] == (ch, m[i]);
      var y :| 0 <= y < |h.log| && h.log[y] == (ch, n[i]);
    }
  }

  // ----- What a complete answer means to the client that asked -----

  predicate Sent(log: seq<(Channel, Envelope)>, ch: Channel, life: nat, n: int) {
    exists j :: 0 <= j < |log| && log[j].0 == ch && log[j].1.data.life == life && log[j].1.seqno == n
  }

  /** Lives of a channel only rise along the log, and its current life was numbered from 1 without a hole. */
  predicate LogFull(h: Hub) {
    && (forall i :: 0 <= i < |h.log| ==> h.log[i].1.seqno >= 1)
    && (forall i, j :: 0 <= i < j < |h.log| && h.log[i].0 == h.log[j].0 ==> h.log[i].1.data.life <= h.log[j].1.data.life)
    && forall ch, n :: ch in h.seqs && 1 <= n <= h.seqs[ch] ==> Sent(h.log, ch, LifeOf(h.lives, ch), n)
  }

  lemma SentStays(log: seq<(Channel, Envelope)>, x: (Channel, Envelope))
    ensures forall ch, life, n :: Sent(log, ch, life, n) ==> Sent(log + [x], ch, life, n)
    ensures Sent(log + [x], x.0, x.1.data.life, x.1.seqno)
  {
    var more := log + [x];
    assert more[|log|] == x;
    forall ch, life, n | Sent(log, ch, life, n) ensures Sent(more, ch, life, n) {
      var j :| 0 <= j < |log| && log[j].0 == ch && log[j].1.data.life == life && log[j].1.seqno == n;
      assert more[j] == log[j];
    }
  }

  lemma BroadcastCore(h: Hub, ch: Channel, data: string, now: int)
    ensures var e, k := NextEnvelope(h, ch, data), Broadcast(h, ch, data, now);
            k.log == h.log + [(ch, e)] && k.seqs == h.seqs[ch := e.seqno] && k.lives == h.lives
  {
    hide Keeps, KeepReplay, PushTo, NextEnvelope;
    var a := Number(h, ch, data, now);
    KeepCore(a, ch, now);
    PushCore(KeepReplay(a, ch, now), ch, NextEnvelope(h, ch, data));
  }

  lemma KeepCore(a: Hub, ch: Channel, now: int)
    ensures var k := KeepReplay(a, ch, now); k.log == a.log && k.seqs == a.seqs && k.lives == a.lives
  {
    hide AnyoneWants, WantedLately;
  }

  lemma PushCore(k: Hub, ch: Channel, e: Envelope)
    ensures var p := PushTo(k, ch, e); p.log == k.log && p.seqs == k.seqs && p.lives == k.lives
  {
    hide RB.Pushed;
  }

  lemma FullKeeps(h: Hub, op: Op)
    requires LogOk(h) && LogFull(h) && forall ch :: ch in h.seqs ==> h.seqs[ch] >= 1
    ensures LogFull(Apply(h, op)) && h.log <= Apply(h, op).log
  {
    hide Broadcast, IdleSet, Evict, LogFull, LogOk;
    match op
    case Send(ch, data, now) => SendFull(h, ch, data, now);
    case Sweep(now, ttl) => SweepFull(h, IdleSet(h.latest, now, ttl));
    case _ => FullOf(h, Apply(h, op));
  }

  lemma SendFull(h: Hub, ch: Channel, data: string, now: int)
    requires LogOk(h) && LogFull(h) && forall c :: c in h.seqs ==> h.seqs[c] >= 1
    ensures LogFull(Broadcast(h, ch, data, now)) && h.log <= Broadcast(h, ch, data, now).log
  {
    hide Broadcast, Sent;
    BroadcastCore(h, ch, data, now);
    SentStays(h.log, (ch, NextEnvelope(h, ch, data)));
  }

  lemma SweepFull(h: Hub, gone: set<Channel>)
    requires LogFull(h)
    ensures LogFull(Evict(h, gone)) && Evict(h, gone).log == h.log
  {
    hide Sent;
    var k := Evict(h, gone);
    assert forall ch :: ch in k.seqs ==> LifeOf(k.lives, ch) == LifeOf(h.lives, ch);
  }

  lemma FullOf(h: Hub, k: Hub)
    requires LogFull(h) && h.log == k.log && h.lives == k.lives && h.seqs == k.seqs
    ensures LogFull(k)
  {
    hide Sent;
  }

  lemma {:induction false} RunFull(h: Hub, ops: seq<Op>)
    requires Ok(h) && LogFull(h)
    ensures LogFull(Run(h, ops)) && h.log <= Run(h, ops).log
  {
    if ops != [] {
      var g := Run(h, ops[..|ops| - 1]);
      RunFull(h, ops[..|ops| - 1]);
      RunKeeps(h, ops[..|ops| - 1]);
      hide LogFull, LogOk, Apply, BufOk, LiveOk;
      FullKeeps(g, ops[|ops| - 1]);
    }
  }

  /** messages hold everything sent on the channel after log entry i, as far as its number is at most to. */
  predicate HoldsSince(messages: seq<Envelope>, log: seq<(Channel, Envelope)>, i: nat, ch: Channel, to: int) {
    forall j :: i < j < |log| && log[j].0 == ch && log[j].1.seqno <= to ==> log[j].1 in messages
  }

  /** A client whose last envelope of the channel is log entry i asks for what follows, up to to. Whatever the gateway does
      around and during the request, a complete answer holds everything sent since, up to that number, if and only if the
      channel was not evicted since. */
  lemma ResumeExact(epoch: string, before: seq<Op>, between: seq<Op>, after: seq<Op>, ch: Channel, i: nat, to: int,
                    clientEpoch: string)
    requires var h := Run(Start(epoch), before); i < |h.log| && h.log[i].0 == ch
    ensures var h := Run(Start(epoch), before);
            var a := Run(h, between);
            var b := Run(a, after);
            var last := h.log[i].1;
            var m := FinishMissed(BeginMissed(h, ch), a, b, last.seqno + 1, to, clientEpoch);
            m.complete ==> (HoldsSince(m.messages, h.log, i, ch, to) <==> last.data.life == LifeOf(h.lives, ch))
  {
    hide Run, FinishMissed, BeginMissed, ExactRange, HoldsSince, Ok, LogFull;
    var h := Run(Start(epoch), before);
    var a := Run(h, between);
    var b := Run(a, after);
    var last := h.log[i].1;
    var m := FinishMissed(BeginMissed(h, ch), a, b, last.seqno + 1, to, clientEpoch);
    if m.complete {
      StatesOk(epoch, before, between, after);
      CompleteLife(epoch, before, between, after, ch, last.seqno + 1, to, clientEpoch);
      if last.data.life == LifeOf(h.lives, ch) {
        SameLifeHolds(h, b, ch, i, to, m.messages);
      } else {
        EvictedLacks(h, ch, i, to, m.messages, b.log);
      }
    }
  }

  lemma StatesOk(epoch: string, before: seq<Op>, between: seq<Op>, after: seq<Op>)
    ensures var h := Run(Start(epoch), before);
            var b := Run(Run(h, between), after);
            Ok(h) && LogFull(h) && Ok(b) && h.log <= b.log
  {
    hide Run;
    var h := Run(Start(epoch), before);
    StartOk(epoch);
    RunKeeps(Start(epoch), before);
    RunFull(Start(epoch), before);
    RunKeeps(h, between);
    RunFull(h, between);
    RunKeeps(Run(h, between), after);
    RunFull(Run(h, between), after);
  }

  /** The envelopes of a complete answer are of the life the channel had when the request read it. */
  lemma CompleteLife(epoch: string, before: seq<Op>, between: seq<Op>, after: seq<Op>, ch: Channel, from: int, to: int,
                     clientEpoch: string)
    ensures var h := Run(Start(epoch), before);
            var a := Run(h, between);
            var b := Run(a, after);
            var m := FinishMissed(BeginMissed(h, ch), a, b, from, to, clientEpoch);
            m.complete ==> ExactRange(m.messages, ch, from, to, b.log) && from <= to && ch in h.seqs && h.seqs[ch] >= 1
                           && m.messages[0].data.life == LifeOf(h.lives, ch)
  {
    var h := Run(Start(epoch), before);
    var a := Run(h, between);
    var b := Run(a, after);
    CompleteIsExact(epoch, before, between, after, ch, from, to, clientEpoch);
    StartOk(epoch);
    RunKeeps(Start(epoch), before);
    RunKeeps(h, between);
    RunKeeps(a, after);
    RunGrows(h, between);
    RunGrows(a, after);
    hide Run, LogOk, ExactRange, RB.InRange;
    var m := FinishMissed(BeginMissed(h, ch), a, b, from, to, clientEpoch);
    if m.complete {
      assert LiveOk(h, ch);
      var buf := b.pool[h.bufs[ch]];
      RangeMembers(buf.list, from, to);
      assert m.messages[0] in buf.list && BufOk(buf, b.log);
    }
  }

  lemma RangeMembers(list: seq<Envelope>, from: int, to: int)
    ensures forall e :: e in RB.InRange(list, from, to) ==> e in list
  {
  }

  lemma SameLifeHolds(h: Hub, b: Hub, ch: Channel, i: nat, to: int, messages: seq<Envelope>)
    requires Ok(h) && LogFull(h) && Ok(b) && h.log <= b.log && i < |h.log| && h.log[i].0 == ch
    requires h.log[i].1.data.life == LifeOf(h.lives, ch) && h.log[i].1.seqno < to
    requires ExactRange(messages, ch, h.log[i].1.seqno + 1, to, b.log) && messages[0].data.life == LifeOf(h.lives, ch)
    ensures HoldsSince(messages, h.log, i, ch, to)
  {
    var n := h.log[i].1.seqno;
    forall j | i < j < |h.log| && h.log[j].0 == ch && h.log[j].1.seqno <= to ensures h.log[j].1 in messages {
      var e := h.log[j].1;
      assert e.data.life == LifeOf(h.lives, ch) && n < e.seqno;
      assert b.log[j] == (ch, e);
      var x := messages[e.seqno - n - 1];
      var y :| 0 <= y < |b.log| && b.log[y] == (ch, x);
      assert y == j;
      assert x in messages;
    }
  }

  lemma EvictedLacks(h: Hub, ch: Channel, i: nat, to: int, messages: seq<Envelope>, log: seq<(Channel, Envelope)>)
    requires Ok(h) && LogFull(h) && i < |h.log| && h.log[i].0 == ch
    requires h.log[i].1.data.life != LifeOf(h.lives, ch) && ch in h.seqs && h.seqs[ch] >= 1 && h.log[i].1.seqno < to
    requires ExactRange(messages, ch, h.log[i].1.seqno + 1, to, log)
    ensures !HoldsSince(messages, h.log, i, ch, to)
  {
    assert Sent(h.log, ch, LifeOf(h.lives, ch), 1);
    var j :| 0 <= j < |h.log| && h.log[j].0 == ch && h.log[j].1.data.life == LifeOf(h.lives, ch) && h.log[j].1.seqno == 1;
    assert h.log[i].1.data.life <= LifeOf(h.lives, ch);
    assert i < j;
    assert h.log[j].1 !in messages;
  }

  /** Within one epoch a client that saw number 1 before an eviction is told that 2..2 is complete, and lacks the new life's
      first envelope. */
  lemma EvictionGoesUnnoticed()
    ensures var ch := Other("x");
            var h := Run(Start("e"), [Send(ch, "a", 0), Sweep(1, 1), Send(ch, "b", 1), Send(ch, "c", 1)]);
            var m := FinishMissed(BeginMissed(h, ch), h, h, 2, 2, "e");
            && m.complete && |h.log| == 3 && h.log[0].1.seqno == 1
            && h.log[1].1 == RB.Entry(1, Body(1, "e", "b")) && m.messages == [RB.Entry(2, Body(1, "e", "c"))]
  {
    hide Apply, Run, Broadcast;
    var ch, s := Other("x"), Start("e");
    FourSteps(s, Send(ch, "a", 0), Sweep(1, 1), Send(ch, "b", 1), Send(ch, "c", 1));
    var h2 := Apply(Apply(s, Send(ch, "a", 0)), Sweep(1, 1));
    SentThenEvicted(ch);
    SentTwice(h2, ch);
    var first, second := RB.Entry(1, Body(1, "e", "b")), RB.Entry(2, Body(1, "e", "c"));
    assert [first, second][..1] == [first] && [first][..0] == [];
    assert RB.InRange([first], 2, 2) == [];
  }

  lemma FourSteps(s: Hub, a: Op, b: Op, c: Op, d: Op)
    ensures Run(s, [a, b, c, d]) == Apply(Apply(Apply(Apply(s, a), b), c), d)
  {
    hide Apply;
    assert [a, b, c, d][..3] == [a, b, c] && [a, b, c][..2] == [a, b] && [a, b][..1] == [a] && [a][..0] == [];
    assert Run(s, []) == s;
    assert Run(s, [a]) == Apply(s, a);
    assert Run(s, [a, b]) == Apply(Apply(s, a), b);
    assert Run(s, [a, b, c]) == Apply(Apply(Apply(s, a), b), c);
  }

  lemma SentThenEvicted(ch: Channel)
    requires ch.Other?
    ensures var h := Apply(Apply(Start("e"), Send(ch, "a", 0)), Sweep(1, 1));
            && h.epoch == "e" && h.seqs == map[] && h.bufs == map[] && LifeOf(h.lives, ch) == 1
            && h.log == [(ch, RB.Entry(1, Body(0, "e", "a")))]
  {
    FirstSend(Start("e"), ch, "a", 0);
    hide Broadcast;
    var g := Apply(Start("e"), Send(ch, "a", 0));
    assert g.log == [(ch, RB.Entry(1, Body(0, "e", "a")))];
    assert IdleSet(g.latest, 1, 1) == {ch};
  }

  lemma SentTwice(h: Hub, ch: Channel)
    requires ch.Other? && h.seqs == map[] && h.bufs == map[]
    ensures var g := Apply(Apply(h, Send(ch, "b", 1)), Send(ch, "c", 1));
            var first, second := RB.Entry(1, Body(LifeOf(h.lives, ch), h.epoch, "b")), RB.Entry(2, Body(LifeOf(h.lives, ch), h.epoch, "c"));
            && g.log == h.log + [(ch, first), (ch, second)] && g.epoch == h.epoch
            && ch in g.bufs && ListAt(g, g.bufs[ch]) == [first, second]
  {
    FirstSend(h, ch, "b", 1);
    NextSend(Broadcast(h, ch, "b", 1), ch, "c", 1);
    hide Broadcast;
  }

  /** A channel without a number or buffer that always keeps one. */
  lemma FirstSend(h: Hub, ch: Channel, data: string, now: int)
    requires ch.Other? && ch !in h.seqs && ch !in h.bufs
    ensures var e, n := RB.Entry(1, Body(LifeOf(h.lives, ch), h.epoch, data)), |h.pool|;
            Broadcast(h, ch, data, now) ==
            h.(seqs := h.seqs[ch := 1], latest := h.latest[ch := Latest(data, now, 1)], log := h.log + [(ch, e)],
               bufs := h.bufs[ch := n], pool := h.pool + [Buf(ch, LifeOf(h.lives, ch), [e])])
  {
    var e := NextEnvelope(h, ch, data);
    assert [] + [e] == [e];
    assert RB.Pushed([], e, CAP) == [e];
  }

  lemma NextSend(h: Hub, ch: Channel, data: string, now: int)
    requires ch.Other? && ch in h.seqs && ch in h.bufs && h.bufs[ch] < |h.pool| && |h.pool[h.bufs[ch]].list| < CAP
    ensures var n, b := h.seqs[ch] + 1, h.pool[h.bufs[ch]];
            var e := RB.Entry(n, Body(LifeOf(h.lives, ch), h.epoch, data));
            Broadcast(h, ch, data, now) ==
            h.(seqs := h.seqs[ch := n], latest := h.latest[ch := Latest(data, now, n)], log := h.log + [(ch, e)],
               pool := h.pool[h.bufs[ch] := b.(list := b.list + [e])])
  {
  }

  // ----- The hub object -----

  class HubObject {
    var epoch: string
    var seqs: map<Channel, int>
    var latest: map<Channel, Latest>
    var bufs: map<Channel, nat>
    var pool: seq<Buf>
    var wantedAt: map<Channel, int>
    var clients: map<nat, set<Sub>>

    /** Kept for the model only: how often each channel was evicted, and every envelope sent. */
    var lives: map<Channel, nat>
    ghost var log: seq<(Channel, Envelope)>

    ghost function View(): Hub
      reads this
    {
      Hub(epoch, seqs, latest, bufs, pool, wantedAt, clients, lives, log)
    }

    constructor (epoch: string)
      ensures View() == Start(epoch)
    {
      this.epoch, seqs, latest, bufs, pool, wantedAt, clients := epoch, map[], map[], map[], [], map[], map[];
      lives, log := map[], [];
    }

    method RegisterClient(id: nat)
      modifies this`clients
      ensures View() == Apply(old(View()), Connect(id))
    {
      clients := clients[id := {}];
    }

    method RemoveClient(id: nat)
      modifies this`clients
      ensures View() == Apply(old(View()), Disconnect(id))
    {
      clients := clients - {id};
    }

    /** Whether a client explicitly subscribed to a candle or indicator channel. */
    method FindSubscriber(ch: Channel) returns (found: bool)
      ensures found == AnyoneWants(clients, ch)
    {
      var todo := clients.Keys;
      while todo != {}
        invariant todo <= clients.Keys
        invariant forall c :: c in clients && c !in todo ==> !SubscribedTo(clients[c], ch)
        decreases |todo|
      {
        var c :| c in todo;
        var covered := SubsMatch(clients[c], ch);
        if covered {
          return true;
        }
        todo := todo - {c};
      }
      return false;
    }

    /** Notes interest in the channel, or drops the buffer nobody needs. */
    method KeepReplayLocked(ch: Channel, now: int) returns (keep: bool)
      modifies this`bufs, this`wantedAt
      ensures keep == Keeps(old(View()), ch, now) && View() == KeepReplay(old(View()), ch, now)
    {
      hide AnyoneWants;
      if ch.Tick? {
        return false;
      }
      if !ch.Candle? && !ch.Indicator? {
        return true;
      }
      var found := FindSubscriber(ch);
      if found {
        wantedAt := wantedAt[ch := now];
        return true;
      }
      if ch in wantedAt && now - wantedAt[ch] < GRACE {
        return true;
      }
      wantedAt, bufs := wantedAt - {ch}, bufs - {ch};
      return false;
    }

    method Broadcast(ch: Channel, data: string, now: int) returns (e: Envelope)
      requires Ok(View())
      modifies this
      ensures View() == Apply(old(View()), Send(ch, data, now)) && Ok(View())
      ensures log == old(log) + [(ch, e)]
    {
      hide Keeps, KeepReplay, Ok, RB.Pushed, PushTo;
      SendKeeps(View(), ch, data, now);
      var n := (if ch in seqs then seqs[ch] else 0) + 1;
      e := RB.Entry(n, Body(LifeOf(lives, ch), epoch, data));
      seqs, latest, log := seqs[ch := n], latest[ch := Latest(data, now, n)], log + [(ch, e)];
      var keep := KeepReplayLocked(ch, now);
      if keep {
        Push(ch, e);
      }
    }

    /** The buffer of the channel, created when it has none, takes the envelope. */
    method Push(ch: Channel, e: Envelope)
      modifies this`bufs, this`pool
      ensures View() == PushTo(old(View()), ch, e)
    {
      if !(ch in bufs && bufs[ch] < |pool|) {
        bufs, pool := bufs[ch := |pool|], pool + [Buf(ch, LifeOf(lives, ch), [])];
      }
      var b := pool[bufs[ch]];
      pool := pool[bufs[ch] := b.(list := RB.Pushed(b.list, e, CAP))];
    }

    /** An undisturbed backfill request. */
    method BuildMissed(ch: Channel, from: int, to: int, clientEpoch: string) returns (m: Missed)
      requires Ok(View())
      ensures m.epoch == epoch && m.current == SeqOf(View(), ch)
      ensures m.complete <==> clientEpoch in {"", epoch} && ch in bufs && m.oldest <= from <= to <= m.current
      ensures m.complete ==> ExactRange(m.messages, ch, from, to, log)
    {
      hide Ok, RB.InRange, ExactRange;
      CompleteWhenBuffered(View(), ch, from, to, clientEpoch);
      var current := if ch in seqs then seqs[ch] else 0;
      if ch !in bufs {
        return Missed(epoch, current, 0, [], false);
      }
      var list := if bufs[ch] < |pool| then pool[bufs[ch]].list else [];
      var oldest := if list == [] then 0 else list[0].seqno;
      var messages := ScanRange(list, from, to);
      var complete := (clientEpoch == "" || clientEpoch == epoch) && to >= from && |messages| == to - from + 1;
      return Missed(epoch, current, oldest, messages, complete);
    }

    /** One sweep: every channel silent for ttl goes, with its number, buffer and interest. */
    method SweepIdleChannels(now: int, ttl: int)
      modifies this
      ensures View() == Apply(old(View()), Sweep(now, ttl))
    {
      var gone := FindIdle(latest, now, ttl);
      latest, seqs, bufs, wantedAt := latest - gone, seqs - gone, bufs - gone, wantedAt - gone;
      lives := lives + map ch | ch in gone :: LifeOf(lives, ch) + 1;
    }
  }

  method FindIdle(latest: map<Channel, Latest>, now: int, ttl: int) returns (gone: set<Channel>)
    ensures gone == IdleSet(latest, now, ttl)
  {
    hide Idle;
    var todo := latest.Keys;
    gone := {};
    while todo != {}
      invariant todo <= latest.Keys
      invariant forall ch :: ch in gone <==> ch in latest && ch !in todo && Idle(latest[ch], ch, now, ttl)
      decreases |todo|
    {
      var ch :| ch in todo;
      if Idle(latest[ch], ch, now, ttl) {
        gone := gone + {ch};
      }
      todo := todo - {ch};
    }
  }

  method ScanRange(list: seq<Envelope>, from: int, to: int) returns (messages: seq<Envelope>)
    ensures messages == RB.InRange(list, from, to)
  {
    hide RB.InRange;
    messages := [];
    RB.InRangeNone(list[..0], from, to);
    for i := 0 to |list|
      invariant messages == RB.InRange(list[..i], from, to)
    {
      RB.InRangeSnoc(list[..i], list[i], from, to);
      assert list[..i + 1] == list[..i] + [list[i]];
      if list[i].seqno >= from && list[i].seqno <= to {
        messages := messages + [list[i]];
      }
    }
    assert list[..|list|] == list;
  }

  method SubsMatch(subs: set<Sub>, ch: Channel) returns (r: bool)
    ensures r == SubscribedTo(subs, ch)
  {
    var todo := subs;
    while todo != {}
      invariant todo <= subs && forall s :: s in subs && s !in todo ==> !Covers(s, ch)
      decreases |todo|
    {
      var s :| s in todo;
      if Covers(s, ch) {
        return true;
      }
      todo := todo - {s};
    }
    return false;
  }
}
