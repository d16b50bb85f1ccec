/** Lossless signals: numbering, fan-out and disconnection of slow clients on one route loop, beside everything else that
    touches the clients. */
module SignalFanout {
  import opened Common

  datatype Msg = Hello(epoch: string) | Signal(n: nat) | Plain

  const QUEUE: nat := 256

  /** A client ever registered: what was queued to it, how full its queue is, and the first signal it is owed. */
  datatype Peer = Peer(log: seq<Msg>, used: nat, since: nat)

  /** The route loop: between signals, with one numbered, fanning it out under the read lock, disconnecting who missed it. */
  datatype Phase = Idle | Numbered | Fanning(todo: set<nat>, slow: set<nat>) | Disconnecting(slow: set<nat>)

  /** clients are the registered ones; peers also remembers those removed. */
  datatype Hub = Hub(epoch: string, last: nat, phase: Phase, clients: set<nat>, peers: map<nat, Peer>)

  function Start(epoch: string): Hub { Hub(epoch, 0, Idle, {}, map[]) }

  datatype Step =
    | Register(id: nat)
    | Remove(id: nat)
    | Number
    | BeginFan
    | FanOne(id: nat)
    | EndFan
    | Disconnect(id: nat)
    | EndDisconnect
    | Bump(epoch: string)
    | SendOther(id: nat, m: Msg)
    | Write(id: nat, k: nat)

  /** Steps that need the write lock wait while the fan-out holds the read lock. */
  predicate Enabled(h: Hub, s: Step) {
    match s
    case Register(id) => !h.phase.Fanning? && id !in h.peers
    case Remove(id) => !h.phase.Fanning?
    case Number => h.phase.Idle?
    case BeginFan => h.phase.Numbered?
    case FanOne(id) => h.phase.Fanning? && id in h.phase.todo && id in h.peers
    case EndFan => h.phase.Fanning? && h.phase.todo == {}
    case Disconnect(id) => h.phase.Disconnecting? && id in h.phase.slow
    case EndDisconnect => h.phase.Disconnecting? && h.phase.slow == {}
    case Bump(_) => !h.phase.Fanning?
    case SendOther(id, m) => id in h.clients && id in h.peers && !m.Signal?
    case Write(id, k) => id in h.peers && k <= h.peers[id].used
  }

  function Queue(p: Peer, m: Msg): Peer { if p.used < QUEUE then p.(log := p.log + [m], used := p.used + 1) else p }

  function Apply(h: Hub, s: Step): Hub
    requires Enabled(h, s)
  {
    match s
    case Register(id) =>
      h.(clients := h.clients + {id},
         peers := h.peers[id := Peer([Hello(h.epoch)], 1, if h.phase.Numbered? then h.last else h.last + 1)])
    case Remove(id) => h.(clients := h.clients - {id})
    case Number => h.(last := h.last + 1, phase := Numbered)
    case BeginFan => h.(phase := Fanning(h.clients, {}))
    case FanOne(id) =>
      var p := h.peers[id];
      h.(peers := h.peers[id := Queue(p, Signal(h.last))],
         phase := Fanning(h.phase.todo - {id}, if p.used < QUEUE then h.phase.slow else h.phase.slow + {id}))
    case EndFan => h.(phase := Disconnecting(h.phase.slow))
    case Disconnect(id) => h.(clients := h.clients - {id}, phase := Disconnecting(h.phase.slow - {id}))
    case EndDisconnect => h.(phase := Idle)
    case Bump(epoch) => h.(epoch := epoch)
    case SendOther(id, m) => h.(peers := h.peers[id := Queue(h.peers[id], m)])
    case Write(id, k) => h.(peers := h.peers[id := h.peers[id].(used := h.peers[id].used - k)])
  }

  predicate IsRun(h: Hub, steps: seq<Step>)
    decreases |steps|, 0
  {
    steps == [] || (IsRun(h, steps[..|steps| - 1]) && Enabled(After(h, steps[..|steps| - 1]), steps[|steps| - 1]))
  }

  function After(h: Hub, steps: seq<Step>): Hub
    requires IsRun(h, steps)
    decreases |steps|, 1
  {
    if steps == [] then h else Apply(After(h, steps[..|steps| - 1]), steps[|steps| - 1])
  }

  // ----- What every interleaving keeps -----

  /** The signal numbers of a log, in order. */
  function Signals(log: seq<Msg>): seq<nat> {
    if log == [] then []
    else Signals(log[..|log| - 1]) + if log[|log| - 1].Signal? then [log[|log| - 1].n] else []
  }

  lemma SignalsSnoc(log: seq<Msg>, m: Msg)
    ensures Signals(log + [m]) == Signals(log) + if m.Signal? then [m.n] else []
  {
    assert (log + [m])[..|log|] == log;
  }

  /** from, from + 1, up to before end. */
  function Count(from: nat, end: nat): (r: seq<nat>)
    requires from <= end
    ensures |r| == end - from && forall i :: 0 <= i < |r| ==> r[i] == from + i
  {
    seq(end - from, i requires 0 <= i => from + i)
  }

  /** The number after the last signal id must have by now: the current one counts once it was fanned out to id. */
  function Due(h: Hub, id: nat): nat {
    match h.phase
    case Idle => h.last + 1
    case Numbered => h.last
    case Fanning(todo, slow) => if id in todo || id in slow then h.last else h.last + 1
    case Disconnecting(slow) => if id in slow then h.last else h.last + 1
  }

  /** A hello came first, and the signals queued run on from the first one owed, without gap or repetition. */
  predicate PeerOk(p: Peer) {
    && p.used <= QUEUE && p.log != [] && p.log[0].Hello?
    && Signals(p.log) == Count(p.since, p.since + |Signals(p.log)|)
  }

  /** A registered client has every signal due. */
  predicate CurrentOk(h: Hub, id: nat) {
    && id in h.peers && h.peers[id].since <= Due(h, id)
    && Signals(h.peers[id].log) == Count(h.peers[id].since, Due(h, id))
  }

  predicate Ok(h: Hub) {
    && (forall id :: id in h.peers ==> PeerOk(h.peers[id]))
    && (forall id :: id in h.clients ==> CurrentOk(h, id))
    && (h.phase.Fanning? ==> h.phase.todo <= h.clients && h.phase.slow <= h.clients && h.phase.todo !! h.phase.slow)
    && (h.phase.Disconnecting? ==> h.phase.slow <= h.peers.Keys)
    && (h.phase.Numbered? || h.phase.Fanning? ==> h.last >= 1)
  }

  lemma QueueOther(p: Peer, m: Msg)
    requires PeerOk(p) && !m.Signal?
    ensures PeerOk(Queue(p, m)) && Signals(Queue(p, m).log) == Signals(p.log) && Queue(p, m).since == p.since
  {
    SignalsSnoc(p.log, m);
  }

  lemma QueueSignal(p: Peer, n: nat)
    requires PeerOk(p) && p.used < QUEUE && p.since <= n && Signals(p.log) == Count(p.since, n)
    ensures PeerOk(Queue(p, Signal(n))) && Queue(p, Signal(n)).since == p.since
    ensures Signals(Queue(p, Signal(n)).log) == Count(p.since, n + 1)
  {
    SignalsSnoc(p.log, Signal(n));
    assert Count(p.since, n + 1) == Count(p.since, n) + [n];
  }

  lemma RegisterKeeps(h: Hub, id: nat)
    requires Ok(h) && Enabled(h, Register(id))
    ensures Ok(Apply(h, Register(id)))
  {
    var k := Apply(h, Register(id));
    var p := k.peers[id];
    SignalsSnoc([], Hello(h.epoch));
    assert [] + [Hello(h.epoch)] == p.log;
    assert Signals(p.log) == Count(p.since, p.since);
    forall c | c in k.clients ensures CurrentOk(k, c) {
      if c != id { assert CurrentOk(h, c); } else { SlowAreClients(h, id); }
    }
  }

  /** Nobody outside the clients is being fanned out to; a slow one awaiting disconnection is a known peer. */
  lemma SlowAreClients(h: Hub, id: nat)
    requires Ok(h) && id !in h.peers
    ensures h.phase.Fanning? ==> id !in h.phase.todo && id !in h.phase.slow
  {
    forall c | c in h.clients ensures c in h.peers { assert CurrentOk(h, c); }
  }

  lemma FanKeeps(h: Hub, id: nat)
    requires Ok(h) && Enabled(h, FanOne(id))
    ensures Ok(Apply(h, FanOne(id)))
  {
    hide Signals;
    var k, p := Apply(h, FanOne(id)), h.peers[id];
    assert CurrentOk(h, id);
    if p.used < QUEUE {
      QueueSignal(p, h.last);
    }
    forall c | c in k.clients ensures CurrentOk(k, c) {
      assert CurrentOk(h, c);
    }
  }

  lemma OtherKeeps(h: Hub, id: nat, m: Msg)
    requires Ok(h) && Enabled(h, SendOther(id, m))
    ensures Ok(Apply(h, SendOther(id, m)))
  {
    hide Signals, Count, Queue;
    QueueOther(h.peers[id], m);
    hide PeerOk;
    var k := Apply(h, SendOther(id, m));
    forall c | c in k.clients ensures CurrentOk(k, c) { assert CurrentOk(h, c); }
  }

  lemma WriteKeeps(h: Hub, id: nat, n: nat)
    requires Ok(h) && Enabled(h, Write(id, n))
    ensures Ok(Apply(h, Write(id, n)))
  {
    hide Signals, Count;
    var k := Apply(h, Write(id, n));
    forall c | c in k.clients ensures CurrentOk(k, c) { assert CurrentOk(h, c); }
  }

  /** The steps that queue nothing: what is due to a client changes only with what it has. */
  lemma PhaseKeeps(h: Hub, s: Step)
    requires Ok(h) && Enabled(h, s)
    requires !s.Register? && !s.FanOne? && !s.SendOther? && !s.Write?
    ensures Ok(Apply(h, s))
  {
    hide Signals, Count, PeerOk;
    var k := Apply(h, s);
    assert k.peers == h.peers && k.clients <= h.clients;
    forall c | c in k.clients ensures CurrentOk(k, c) {
      assert CurrentOk(h, c);
      assert Due(k, c) == Due(h, c);
    }
    if h.phase.Fanning? {
      forall c | c in h.clients ensures c in h.peers { assert CurrentOk(h, c); }
    }
  }

  lemma StepKeeps(h: Hub, s: Step)
    requires Ok(h) && Enabled(h, s)
    ensures Ok(Apply(h, s))
  {
    hide Ok, Apply, Enabled;
    match s
    case Register(id) => RegisterKeeps(h, id);
    case FanOne(id) => FanKeeps(h, id);
    case SendOther(id, m) => OtherKeeps(h, id, m);
    case Write(id, k) => WriteKeeps(h, id, k);
    case _ => PhaseKeeps(h, s);
  }

  /** Over any interleaving of the route loop with registrations, removals, epoch bumps, other sends and the writers: every
      client's queue starts with a hello, the signals queued to it form one run without gaps from the first owed to it, and
      between signals every registered client has all of them up to the last. */
  lemma {:induction false} SignalsAreLossless(epoch: string, steps: seq<Step>)
    requires IsRun(Start(epoch), steps)
    ensures Ok(After(Start(epoch), steps))
  {
    if steps != [] {
      hide Ok, Apply, Enabled;
      SignalsAreLossless(epoch, steps[..|steps| - 1]);
      StepKeeps(After(Start(epoch), steps[..|steps| - 1]), steps[|steps| - 1]);
    }
  }

  // ----- The route loop -----

  class RouteLoop {
    var epoch: string
    var last: nat
    var clients: set<nat>
    var peers: map<nat, Peer>

    /** The state between signals. */
    ghost function View(): Hub
      reads this
    {
      Hub(epoch, last, Idle, clients, peers)
    }

    constructor (epoch: string)
      ensures View() == Start(epoch) && Ok(View())
    {
      this.epoch, last, clients, peers := epoch, 0, {}, map[];
    }

    method RegisterClient(id: nat)
      requires Ok(View()) && id !in peers
      modifies this`clients, this`peers
      ensures View() == Apply(old(View()), Register(id)) && Ok(View())
    {
      RegisterKeeps(View(), id);
      peers, clients := peers[id := Peer([Hello(epoch)], 1, last + 1)], clients + {id};
    }

    /** One signal with nothing in between: every client had room and got it as its newest signal, or was removed. */
    method BroadcastSignal() returns (slow: set<nat>)
      requires Ok(View())
      modifies this
      ensures last == old(last) + 1 && Ok(View()) && slow <= old(clients) && clients == old(clients) - slow
      ensures peers.Keys == old(peers).Keys && epoch == old(epoch)
      ensures forall id :: id in slow ==> old(peers)[id].used == QUEUE && peers[id] == old(peers)[id]
      ensures forall id :: id in clients ==> Signals(peers[id].log) == Signals(old(peers)[id].log) + [last]
    {
      hide Signals, PeerOk, Count, Ok, Apply;
      FanStart(View());
      last := last + 1;
      peers, slow := FanOut(Hub(epoch, last, Fanning(clients, {}), clients, peers), clients, peers, last);
      FanDone(Hub(epoch, last, Fanning({}, slow), clients, peers), slow);
      clients := clients - slow;
    }
  }

  /** Half way through the fan-out: who is still to be served is as before, who was slow had a full queue, who was served has
      the signal. */
  ghost predicate Served(h: Hub, before: map<nat, Peer>) {
    && h.phase.Fanning? && Ok(h) && h.peers.Keys == before.Keys && h.clients <= before.Keys
    && (forall id :: id in h.phase.todo || id in h.phase.slow ==> h.peers[id] == before[id])
    && (forall id :: id in h.phase.slow ==> before[id].used == QUEUE)
    && (forall id :: id in h.clients && id !in h.phase.todo && id !in h.phase.slow ==>
          Signals(h.peers[id].log) == Signals(before[id].log) + [h.last])
  }

  lemma ServeOne(h: Hub, before: map<nat, Peer>, id: nat)
    requires Served(h, before) && id in h.phase.todo && id in h.peers
    ensures Served(Apply(h, FanOne(id)), before)
  {
    hide Signals;
    FanQueueBound(h, id);
    FanKeeps(h, id);
    SignalsSnoc(h.peers[id].log, Signal(h.last));
    hide Ok;
  }

  lemma NothingServed(h: Hub)
    requires Ok(h) && h.phase == Fanning(h.clients, {})
    ensures Served(h, h.peers)
  {
    forall c | c in h.clients ensures c in h.peers { assert CurrentOk(h, c); }
  }

  /** The fan-out loop, from the state in which every client is still to be served. */
  method FanOut(ghost h: Hub, clients: set<nat>, before: map<nat, Peer>, last: nat)
    returns (peers: map<nat, Peer>, slow: set<nat>)
    requires Ok(h) && h == Hub(h.epoch, last, Fanning(clients, {}), clients, before)
    ensures slow <= clients <= before.Keys
    ensures Served(Hub(h.epoch, last, Fanning({}, slow), clients, peers), before)
  {
    NothingServed(h);
    peers, slow := before, {};
    var todo := clients;
    while todo != {}
      invariant todo <= clients <= before.Keys == peers.Keys && slow <= clients && todo !! slow
      invariant Served(Hub(h.epoch, last, Fanning(todo, slow), clients, peers), before)
      decreases |todo|
    {
      hide Served, Ok;
      var id :| id in todo;
      var full;
      peers, full := Serve(Hub(h.epoch, last, Fanning(todo, slow), clients, peers), before, peers, last, id);
      todo, slow := todo - {id}, if full then slow + {id} else slow;
    }
  }

  /** One client of the fan-out: it takes the signal, or it is full. */
  method Serve(ghost h: Hub, ghost before: map<nat, Peer>, peers: map<nat, Peer>, last: nat, id: nat)
    returns (r: map<nat, Peer>, full: bool)
    requires Served(h, before) && h.phase.Fanning? && id in h.phase.todo && id in peers && h.peers == peers && h.last == last
    ensures r.Keys == peers.Keys
    ensures Served(h.(peers := r, phase := Fanning(h.phase.todo - {id}, if full then h.phase.slow + {id} else h.phase.slow)),
                   before)
  {
    hide Served, Ok;
    ServeOne(h, before, id);
    var p := peers[id];
    full := p.used >= QUEUE;
    r := if full then peers else peers[id := p.(log := p.log + [Signal(last)], used := p.used + 1)];
    assert full ==> peers[id := p] == peers;
  }

  lemma FanQueueBound(h: Hub, id: nat)
    requires Ok(h) && id in h.peers
    ensures h.peers[id].used <= QUEUE
  {
    assert PeerOk(h.peers[id]);
  }

  lemma FanStart(h: Hub)
    requires Ok(h) && h.phase.Idle?
    ensures Ok(h.(last := h.last + 1, phase := Fanning(h.clients, {})))
  {
    PhaseKeeps(h, Number);
    PhaseKeeps(Apply(h, Number), BeginFan);
  }

  lemma FanDone(h: Hub, slow: set<nat>)
    requires Ok(h) && h.phase == Fanning({}, slow)
    ensures Ok(h.(clients := h.clients - slow, phase := Idle))
  {
    hide PeerOk, Signals, Count;
    var k := h.(clients := h.clients - slow, phase := Idle);
    forall c | c in k.clients ensures CurrentOk(k, c) { assert CurrentOk(h, c); }
  }

  // ----- The hello -----

  /** The epoch after the steps: that of the last bump. */
  function EpochAfter(epoch: string, steps: seq<Step>): string {
    if steps == [] then epoch
    else
      var s := steps[|steps| - 1];
      if s.Bump? then s.epoch else EpochAfter(epoch, steps[..|steps| - 1])
  }

  /** A client's queue starts with a hello that carries the epoch in force when it registered. */
  lemma {:induction false} HelloTellsEpoch(epoch: string, steps: seq<Step>, i: nat)
    requires IsRun(Start(epoch), steps) && i < |steps| && steps[i].Register?
    ensures After(Start(epoch), steps).epoch == EpochAfter(epoch, steps)
    ensures var h := After(Start(epoch), steps);
            && steps[i].id in h.peers && h.peers[steps[i].id].log != []
            && h.peers[steps[i].id].log[0] == Hello(EpochAfter(epoch, steps[..i]))
  {
    hide Apply, Enabled;
    var init, last := steps[..|steps| - 1], steps[|steps| - 1];
    EpochIs(epoch, init);
    EpochIs(epoch, steps);
    if i == |init| {
      assert steps[..i] == init && last == steps[i];
      Registers(After(Start(epoch), init), last.id);
    } else {
      HelloTellsEpoch(epoch, init, i);
      assert init[..i] == steps[..i];
      LogHeadKept(After(Start(epoch), init), last, steps[i].id);
    }
  }

  lemma {:induction false} EpochIs(epoch: string, steps: seq<Step>)
    requires IsRun(Start(epoch), steps)
    ensures After(Start(epoch), steps).epoch == EpochAfter(epoch, steps)
  {
    if steps != [] { EpochIs(epoch, steps[..|steps| - 1]); }
  }

  lemma Registers(h: Hub, id: nat)
    requires Enabled(h, Register(id))
    ensures id in Apply(h, Register(id)).peers && Apply(h, Register(id)).peers[id].log == [Hello(h.epoch)]
  {
  }

  /** A registered peer is never forgotten, and what heads its queue stays. */
  lemma LogHeadKept(h: Hub, s: Step, id: nat)
    requires Enabled(h, s) && id in h.peers && h.peers[id].log != []
    ensures id in Apply(h, s).peers && Apply(h, s).peers[id].log != [] && Apply(h, s).peers[id].log[0] == h.peers[id].log[0]
  {
  }
}
