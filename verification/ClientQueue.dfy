/** One client's bounded queue: latest-value slots per full-state channel, and the writer that drains both. */
module ClientQueue {
  import opened Common

  /** A frame of a full-state channel, or of anything else (chan None), numbered in the order of the publishing calls. */
  datatype Frame = Frame(chan: Option<string>, n: nat)

  /** Where the writer is: waiting for a frame, holding one, draining what was queued behind it, flushing the slots, done. */
  datatype Writer = Waiting | Received | Draining(left: nat) | Flushing | Stopped

  /** written, count and newest belong to the model: everything handed to the socket, how many frames were published, and
      the newest number of each full-state channel. */
  datatype Client = Client(cap: nat, queue: seq<Frame>, pending: map<string, Frame>, closed: bool, writer: Writer,
                           written: seq<Frame>, count: nat, newest: map<string, nat>)

  function Start(cap: nat): Client { Client(cap, [], map[], false, Waiting, [], 0, map[]) }

  /** What may happen next. A publisher's call is one step: it holds the slot lock, which the flush holds too. */
  datatype Step =
    | Latest(ch: string)
    | Plain
    | Close
    | Receive(ok: bool)
    | CountQueue
    | Drain
    | EndWrite(ok: bool)
    | FlushOne(ch: string)
    | FlushEnd
    | SeeClosed

  predicate IsWriterStep(s: Step) { !s.Latest? && !s.Plain? && !s.Close? }

  predicate Enabled(c: Client, s: Step) {
    match s
    case Latest(_) => !c.writer.Flushing?
    case Plain => true
    case Close => !c.closed
    case Receive(_) => c.writer.Waiting? && c.queue != []
    case CountQueue => c.writer.Received?
    case Drain => c.writer.Draining? && c.writer.left > 0 && c.queue != []
    case EndWrite(_) => c.writer.Draining? && c.writer.left == 0
    case FlushOne(ch) => c.writer.Flushing? && ch in c.pending
    case FlushEnd => c.writer.Flushing? && c.pending == map[]
    case SeeClosed => c.writer.Waiting? && c.queue == [] && c.closed
  }

  predicate Fits(c: Client) { !c.closed && |c.queue| < c.cap }

  function Enqueue(c: Client, f: Frame): Client { if Fits(c) then c.(queue := c.queue + [f]) else c }

  /** A full-state frame: queued, replacing the slot, or parked in it. */
  function SendLatest(c: Client, ch: string): Client {
    var f := Frame(Some(ch), c.count);
    var d := c.(count := c.count + 1, newest := c.newest[ch := c.count]);
    if Fits(c) then d.(queue := c.queue + [f], pending := c.pending - {ch}) else d.(pending := c.pending[ch := f])
  }

  function Apply(c: Client, s: Step): Client
    requires Enabled(c, s)
  {
    match s
    case Latest(ch) => SendLatest(c, ch)
    case Plain => Enqueue(c, Frame(None, c.count)).(count := c.count + 1)
    case Close => c.(closed := true)
    case Receive(ok) =>
      if ok then c.(queue := c.queue[1..], written := c.written + [c.queue[0]], writer := Received)
      else c.(queue := c.queue[1..], writer := Stopped)
    case CountQueue => c.(writer := Draining(|c.queue|))
    case Drain => c.(queue := c.queue[1..], written := c.written + [c.queue[0]], writer := Draining(c.writer.left - 1))
    case EndWrite(ok) => c.(writer := if ok then Flushing else Stopped)
    case FlushOne(ch) =>
      if Fits(c) then c.(queue := c.queue + [c.pending[ch]], pending := c.pending - {ch}) else c.(writer := Waiting)
    case FlushEnd => c.(writer := Waiting)
    case SeeClosed => c.(writer := Stopped)
  }

  /** Each step was possible when it was taken. */
  predicate IsRun(c: Client, steps: seq<Step>)
    decreases |steps|, 0
  {
    steps == [] || (IsRun(c, steps[..|steps| - 1]) && Enabled(After(c, steps[..|steps| - 1]), steps[|steps| - 1]))
  }

  function After(c: Client, steps: seq<Step>): Client
    requires IsRun(c, steps)
    decreases |steps|, 1
  {
    if steps == [] then c else Apply(After(c, steps[..|steps| - 1]), steps[|steps| - 1])
  }

  // ----- What every interleaving keeps -----

  /** Everything on its way out, in order. */
  function Out(c: Client): seq<Frame> { c.written + c.queue }

  /** The frames of each full-state channel are in publication order. */
  predicate Ordered(out: seq<Frame>) {
    forall i, j :: 0 <= i < j < |out| && out[i].chan.Some? && out[i].chan == out[j].chan ==> out[i].n < out[j].n
  }

  /** No frame is numbered past what was published. */
  predicate Known(f: Frame, c: Client) {
    && f.n < c.count
    && (f.chan.Some? ==> f.chan.value in c.newest && f.n <= c.newest[f.chan.value])
  }

  /** A parked frame is the newest of its channel, and newer than every queued or written one. */
  predicate ParkedOk(c: Client, ch: string) {
    && ch in c.pending && ch in c.newest && c.pending[ch] == Frame(Some(ch), c.newest[ch])
    && forall f :: f in Out(c) && f.chan == Some(ch) ==> f.n < c.newest[ch]
  }

  /** The newest frame of the channel is parked or on its way. */
  predicate NewestOk(c: Client, ch: string) {
    ch in c.newest && (ch in c.pending || Frame(Some(ch), c.newest[ch]) in Out(c))
  }

  predicate Ok(c: Client) {
    && c.cap >= 1 && |c.queue| <= c.cap
    && (c.writer.Draining? ==> c.writer.left <= |c.queue|)
    && Ordered(Out(c)) && (forall f :: f in Out(c) ==> Known(f, c))
    && (forall ch :: ch in c.newest ==> c.newest[ch] < c.count)
    && (forall ch :: ch in c.pending ==> ParkedOk(c, ch))
    && (!c.writer.Stopped? ==> forall ch :: ch in c.newest ==> NewestOk(c, ch))
    && (c.writer.Waiting? && !c.closed && c.pending != map[] ==> c.queue != [])
  }

  /** One more frame, newer than all of its channel. */
  lemma OrderedSnoc(out: seq<Frame>, f: Frame)
    requires Ordered(out) && forall g :: g in out && f.chan.Some? && g.chan == f.chan ==> g.n < f.n
    ensures Ordered(out + [f])
  {
  }

  lemma LatestKeeps(c: Client, ch: string)
    requires Ok(c) && Enabled(c, Latest(ch))
    ensures Ok(SendLatest(c, ch))
  {
    var d, f := SendLatest(c, ch), Frame(Some(ch), c.count);
    if Fits(c) {
      assert Out(d) == Out(c) + [f];
      forall g | g in Out(c) ensures Known(g, c) && Known(g, d) {
      }
      OrderedSnoc(Out(c), f);
      forall b | b in d.pending ensures ParkedOk(d, b) { assert ParkedOk(c, b); }
      forall b | b in d.newest && !d.writer.Stopped? ensures NewestOk(d, b) { assert b != ch ==> NewestOk(c, b); }
    } else {
      assert Out(d) == Out(c);
      forall g | g in Out(c) ensures Known(g, c) && Known(g, d) {
      }
      forall b | b in d.pending ensures ParkedOk(d, b) { assert b != ch ==> ParkedOk(c, b); }
      forall b | b in d.newest && !d.writer.Stopped? ensures NewestOk(d, b) { assert b != ch ==> NewestOk(c, b); }
    }
  }

  /** Steps that leave everything on its way out as it is, or only move the boundary between queued and written. */
  lemma SameOut(c: Client, d: Client)
    requires Ok(c) && Out(d) == Out(c) && d.cap == c.cap && |d.queue| <= |c.queue| && d.pending == c.pending
    requires d.count == c.count && d.newest == c.newest && (c.writer.Stopped? ==> d.writer.Stopped?)
    requires d.writer.Draining? ==> d.writer.left <= |d.queue|
    requires d.writer.Waiting? && !d.closed && d.pending != map[] ==> d.queue != []
    ensures Ok(d)
  {
    forall b | b in d.pending ensures ParkedOk(d, b) { assert ParkedOk(c, b); }
    forall b | b in d.newest && !d.writer.Stopped? ensures NewestOk(d, b) { assert NewestOk(c, b); }
    forall f | f in Out(d) ensures Known(f, d) { assert Known(f, c); }
  }

  lemma PlainKeeps(c: Client)
    requires Ok(c)
    ensures Ok(Apply(c, Plain))
  {
    var d, f := Apply(c, Plain), Frame(None, c.count);
    if Fits(c) {
      assert Out(d) == Out(c) + [f];
      OrderedSnoc(Out(c), f);
    } else {
      assert Out(d) == Out(c);
    }
    forall b | b in d.pending ensures ParkedOk(d, b) { assert ParkedOk(c, b); }
    forall b | b in d.newest && !d.writer.Stopped? ensures NewestOk(d, b) { assert NewestOk(c, b); }
    forall g | g in Out(d) ensures Known(g, d) { assert g != f ==> Known(g, c); }
  }

  lemma FlushKeeps(c: Client, ch: string)
    requires Ok(c) && Enabled(c, FlushOne(ch))
    ensures Ok(Apply(c, FlushOne(ch)))
  {
    var d := Apply(c, FlushOne(ch));
    if Fits(c) {
      var f := c.pending[ch];
      assert ParkedOk(c, ch);
      assert Out(d) == Out(c) + [f];
      OrderedSnoc(Out(c), f);
      forall b | b in d.pending ensures ParkedOk(d, b) { assert ParkedOk(c, b); }
      forall b | b in d.newest && !d.writer.Stopped? ensures NewestOk(d, b) { assert NewestOk(c, b); }
      forall g | g in Out(d) ensures Known(g, d) { assert g != f ==> Known(g, c); }
    } else {
      SameOut(c, d);
    }
  }

  lemma DropOne(out: seq<Frame>, k: nat)
    requires Ordered(out) && k < |out|
    ensures Ordered(out[..k] + out[k + 1..]) && forall f :: f in out[..k] + out[k + 1..] ==> f in out
  {
    var r := out[..k] + out[k + 1..];
    forall i, j | 0 <= i < j < |r| && r[i].chan.Some? && r[i].chan == r[j].chan ensures r[i].n < r[j].n {
      var x, y := if i < k then i else i + 1, if j < k then j else j + 1;
      assert out[x] == r[i] && out[y] == r[j];
    }
  }

  /** A failed write loses the frame just taken and stops the writer. */
  lemma LostKeeps(c: Client)
    requires Ok(c) && Enabled(c, Receive(false))
    ensures Ok(Apply(c, Receive(false)))
  {
    var d := Apply(c, Receive(false));
    var k := |c.written|;
    assert Out(d) == Out(c)[..k] + Out(c)[k + 1..];
    DropOne(Out(c), k);
    hide Ordered;
    forall f | f in Out(d) ensures Known(f, d) { assert Known(f, c); }
    forall b | b in d.pending ensures ParkedOk(d, b) { assert ParkedOk(c, b); }
  }

  lemma StepKeeps(c: Client, s: Step)
    requires Ok(c) && Enabled(c, s)
    ensures Ok(Apply(c, s))
  {
    match s
    case Latest(ch) => LatestKeeps(c, ch);
    case Plain => PlainKeeps(c);
    case FlushOne(ch) => FlushKeeps(c, ch);
    case Receive(ok) =>
      if ok {
        assert Out(Apply(c, s)) == Out(c);
        SameOut(c, Apply(c, s));
      } else {
        LostKeeps(c);
      }
    case Drain =>
      assert Out(Apply(c, s)) == Out(c);
      SameOut(c, Apply(c, s));
    case _ =>
      SameOut(c, Apply(c, s));
  }

  /** Under any interleaving of publishers, closing and the writer: each full-state channel is written in publication order,
      a parked frame is newer than every queued or written one of its channel, and a waiting writer of an open client with
      something parked has a frame to wake for. */
  lemma {:induction false} EveryRunOk(cap: nat, steps: seq<Step>)
    requires cap >= 1 && IsRun(Start(cap), steps)
    ensures Ok(After(Start(cap), steps))
  {
    if steps != [] {
      var init := steps[..|steps| - 1];
      EveryRunOk(cap, init);
      hide Ok, Apply, Enabled;
      StepKeeps(After(Start(cap), init), steps[|steps| - 1]);
    } else {
      assert Out(Start(cap)) == [];
    }
  }

  // ----- Once publishing stops -----

  function Phase(w: Writer): nat {
    match w
    case Waiting => 0
    case Received => 3
    case Draining(_) => 2
    case Flushing => 1
    case Stopped => 0
  }

  /** Work left for the writer. */
  function Work(c: Client): nat { 4 * |c.queue| + 5 * |c.pending| + Phase(c.writer) }

  predicate Quiet(c: Client) { c.writer.Waiting? && c.queue == [] }

  /** Every writer step of an open client with a healthy socket uses up work. */
  lemma WriterStepShrinks(c: Client, s: Step)
    requires Ok(c) && !c.closed && IsWriterStep(s) && Enabled(c, s) && (s.Receive? || s.EndWrite? ==> s.ok)
    ensures Work(Apply(c, s)) < Work(c) && !Apply(c, s).closed
    ensures !c.writer.Stopped? && !Apply(c, s).writer.Stopped?
  {
    if s.FlushOne? && Fits(c) {
      var p := c.pending - {s.ch};
      assert c.pending == p[s.ch := c.pending[s.ch]];
      assert |p| == |c.pending| - 1 by { assert p.Keys == c.pending.Keys - {s.ch}; KeysCount(p); KeysCount(c.pending); }
    }
  }

  lemma KeysCount(m: map<string, Frame>)
    ensures |m| == |m.Keys|
  {
  }

  /** Until it is quiet the writer always has a step. */
  lemma WriterNeverStuck(c: Client)
    requires Ok(c) && !c.closed && !c.writer.Stopped? && !Quiet(c)
    ensures exists s: Step :: IsWriterStep(s) && Enabled(c, s) && (s.Receive? || s.EndWrite? ==> s.ok)
  {
    match c.writer
    case Waiting => assert Enabled(c, Receive(true));
    case Received => assert Enabled(c, CountQueue);
    case Draining(left) =>
      assert if left > 0 then Enabled(c, Drain) else Enabled(c, EndWrite(true));
    case Flushing =>
      if ch :| ch in c.pending { assert Enabled(c, FlushOne(ch)); } else { assert Enabled(c, FlushEnd); }
  }

  /** So writer steps alone, whichever are taken, end within Work(c) steps, and end only when quiet. */
  lemma {:induction false} WriterRunsEnd(c: Client, steps: seq<Step>)
    requires Ok(c) && !c.closed && !c.writer.Stopped? && IsRun(c, steps)
    requires forall s :: s in steps ==> IsWriterStep(s) && (s.Receive? || s.EndWrite? ==> s.ok)
    ensures var d := After(c, steps);
            Ok(d) && !d.closed && !d.writer.Stopped? && Work(d) + |steps| <= Work(c)
  {
    if steps != [] {
      var init := steps[..|steps| - 1];
      hide Ok, Apply, Enabled, Work;
      WriterRunsEnd(c, init);
      StepKeeps(After(c, init), steps[|steps| - 1]);
      WriterStepShrinks(After(c, init), steps[|steps| - 1]);
    }
  }

  /** The last frame of a channel that was written. */
  function LastWritten(out: seq<Frame>, ch: string): Option<nat> {
    if out == [] then None
    else if out[|out| - 1].chan == Some(ch) then Some(out[|out| - 1].n)
    else LastWritten(out[..|out| - 1], ch)
  }

  lemma {:induction false} LastIsLargest(out: seq<Frame>, ch: string, n: nat)
    requires Frame(Some(ch), n) in out && forall f :: f in out && f.chan == Some(ch) ==> f.n <= n
    requires Ordered(out)
    ensures LastWritten(out, ch) == Some(n)
  {
    var i :| 0 <= i < |out| && out[i] == Frame(Some(ch), n);
    var last := out[|out| - 1];
    if last.chan == Some(ch) {
      assert last in out;
    } else {
      assert out[..|out| - 1][i] == out[i];
      LastIsLargest(out[..|out| - 1], ch, n);
    }
  }

  /** At a quiet writer of an open client nothing is parked, and the last frame written on every full-state channel is the
      newest one published. */
  lemma QuietIsCurrent(cap: nat, steps: seq<Step>)
    requires cap >= 1 && IsRun(Start(cap), steps)
    ensures var c := After(Start(cap), steps);
            Quiet(c) && !c.closed ==>
              c.pending == map[] && forall ch :: ch in c.newest ==> LastWritten(c.written, ch) == Some(c.newest[ch])
  {
    EveryRunOk(cap, steps);
    var c := After(Start(cap), steps);
    if Quiet(c) && !c.closed {
      assert Out(c) == c.written;
      forall ch | ch in c.newest ensures LastWritten(c.written, ch) == Some(c.newest[ch]) {
        assert NewestOk(c, ch);
        forall f | f in c.written && f.chan == Some(ch) ensures f.n <= c.newest[ch] { assert Known(f, c); }
        LastIsLargest(c.written, ch, c.newest[ch]);
      }
    }
  }

  // ----- The client object -----

  lemma RunSnoc(c: Client, steps: seq<Step>, s: Step)
    requires IsRun(c, steps) && Enabled(After(c, steps), s)
    ensures IsRun(c, steps + [s]) && After(c, steps + [s]) == Apply(After(c, steps), s)
  {
    assert (steps + [s])[..|steps|] == steps;
  }

  lemma RunNone(c: Client)
    ensures IsRun(c, []) && After(c, []) == c
  {
  }

  class ClientObject {
    const cap: nat
    var queue: seq<Frame>
    var pending: map<string, Frame>
    var closed: bool
    var writer: Writer
    ghost var written: seq<Frame>
    var count: nat
    ghost var newest: map<string, nat>

    ghost function View(): Client
      reads this
    {
      Client(cap, queue, pending, closed, writer, written, count, newest)
    }

    constructor (cap: nat)
      ensures View() == Start(cap)
    {
      this.cap, queue, pending, closed, writer, written, count, newest := cap, [], map[], false, Waiting, [], 0, map[];
    }

    /** Sending on a closed or full queue fails. */
    method TrySend(f: Frame) returns (ok: bool)
      modifies this`queue
      ensures ok == Fits(old(View()))
      ensures queue == if ok then old(queue) + [f] else old(queue)
    {
      if closed || |queue| >= cap {
        return false;
      }
      queue := queue + [f];
      return true;
    }

    method SafeSend() returns (ok: bool)
      modifies this`queue, this`count
      ensures View() == Apply(old(View()), Plain) && ok == Fits(old(View()))
    {
      ok := TrySend(Frame(None, count));
      count := count + 1;
    }

    method PublishLatest(ch: string)
      modifies this`queue, this`pending, this`count, this`newest
      ensures View() == SendLatest(old(View()), ch)
    {
      var f := Frame(Some(ch), count);
      count, newest := count + 1, newest[ch := count];
      var ok := TrySend(f);
      if ok {
        pending := pending - {ch};
        return;
      }
      pending := pending[ch := f];
    }

    /** Parked frames move into the queue, in any order, until one does not fit. start and before say how the client got
        here; steps is that run with the flush. */
    method FlushPending(ghost start: Client, ghost before: seq<Step>) returns (ghost steps: seq<Step>)
      requires writer.Flushing? && IsRun(start, before) && View() == After(start, before)
      modifies this`queue, this`pending, this`writer
      ensures IsRun(start, steps) && View() == After(start, steps) && writer.Waiting? && before <= steps
      ensures forall i :: |before| <= i < |steps| ==> steps[i].FlushOne? || steps[i].FlushEnd?
    {
      hide IsRun, After;
      steps := before;
      while pending != map[]
        invariant IsRun(start, steps) && View() == After(start, steps) && writer.Flushing? && before <= steps
        invariant forall i :: |before| <= i < |steps| ==> steps[i].FlushOne?
        decreases |pending.Keys|
      {
        var ch :| ch in pending;
        RunSnoc(start, steps, FlushOne(ch));
        steps := steps + [FlushOne(ch)];
        var ok := TrySend(pending[ch]);
        if !ok {
          writer := Waiting;
          return;
        }
        assert (pending - {ch}).Keys == pending.Keys - {ch};
        pending := pending - {ch};
      }
      RunSnoc(start, steps, FlushEnd);
      steps := steps + [FlushEnd];
      writer := Waiting;
    }

    /** The frames queued behind the one in hand go out with it. */
    method DrainQueued(ghost start: Client, ghost before: seq<Step>) returns (ghost steps: seq<Step>)
      requires writer.Received? && IsRun(start, before) && View() == After(start, before)
      modifies this`queue, this`writer, this`written
      ensures IsRun(start, steps) && View() == After(start, steps) && writer == Draining(0) && before <= steps
      ensures forall i :: |before| <= i < |steps| ==> steps[i].CountQueue? || steps[i].Drain?
      ensures written == old(written) + old(queue) && queue == []
    {
      hide IsRun, After;
      var n := |queue|;
      RunSnoc(start, before, CountQueue);
      steps, writer := before + [CountQueue], Draining(n);
      while n > 0
        invariant n >= 0 && |queue| == n && writer == Draining(n) && before <= steps
        invariant IsRun(start, steps) && View() == After(start, steps)
        invariant written + queue == old(written) + old(queue)
        invariant forall i :: |before| <= i < |steps| ==> steps[i].CountQueue? || steps[i].Drain?
      {
        RunSnoc(start, steps, Drain);
        steps, n := steps + [Drain], n - 1;
        written, queue, writer := written + [queue[0]], queue[1..], Draining(n);
      }
    }

    /** One round of the writer: the frame that woke it, everything queued by then, and the flush. */
    method WriteRound() returns (ghost steps: seq<Step>)
      requires writer.Waiting? && queue != []
      modifies this`queue, this`pending, this`writer, this`written
      ensures IsRun(old(View()), steps) && View() == After(old(View()), steps) && writer.Waiting?
      ensures forall i :: 0 <= i < |steps| ==>
                IsWriterStep(steps[i]) && (steps[i].Receive? || steps[i].EndWrite? ==> steps[i].ok)
      ensures written == old(written) + old(queue)
    {
      hide IsRun, After;
      ghost var was := View();
      RunNone(was);
      RunSnoc(was, [], Receive(true));
      steps := [] + [Receive(true)];
      written, queue, writer := written + [queue[0]], queue[1..], Received;
      steps := DrainQueued(was, steps);
      RunSnoc(was, steps, EndWrite(true));
      steps, writer := steps + [EndWrite(true)], Flushing;
      steps := FlushPending(was, steps);
    }
  }

  // ----- Frames of other channels -----

  /** Step i publishes a plain frame while the queue is open and has room. */
  ghost predicate PlainFits(cap: nat, steps: seq<Step>, i: nat) {
    i < |steps| && steps[i].Plain? && IsRun(Start(cap), steps[..i]) && Fits(After(Start(cap), steps[..i]))
  }

  /** Some step before the last n published f as a plain frame that fitted. */
  ghost predicate Published(cap: nat, steps: seq<Step>, f: Frame) {
    exists i: nat :: PlainFits(cap, steps, i) && f == Frame(None, After(Start(cap), steps[..i]).count)
  }

  /** Unless a write fails, the plain frames written or queued are exactly those published while there was room: a plain frame is dropped
      only by a full or closed queue. */
  lemma {:induction false} PlainExact(cap: nat, steps: seq<Step>, f: Frame)
    requires IsRun(Start(cap), steps) && cap >= 1 && f.chan == None && forall s :: s in steps && s.Receive? ==> s.ok
    ensures f in Out(After(Start(cap), steps)) <==> Published(cap, steps, f)
  {
    if steps != [] {
      hide Apply, Enabled, Out, Published;
      var init, s := steps[..|steps| - 1], steps[|steps| - 1];
      assert init + [s] == steps && s in steps;
      PlainExact(cap, init, f);
      EveryRunOk(cap, init);
      PublishedOn(cap, init, s, f);
      OutStep(After(Start(cap), init), s, f);
    } else {
      assert !Published(cap, [], f);
    }
  }

  lemma PublishedOn(cap: nat, init: seq<Step>, s: Step, f: Frame)
    requires IsRun(Start(cap), init)
    ensures var c := After(Start(cap), init);
            Published(cap, init + [s], f) <==> Published(cap, init, f) || (s.Plain? && Fits(c) && f == Frame(None, c.count))
  {
    hide IsRun, After, Fits;
    var steps := init + [s];
    assert steps[..|init|] == init && steps[|init|] == s;
    forall i: nat | i < |init| ensures PlainFits(cap, steps, i) == PlainFits(cap, init, i) && steps[..i] == init[..i] {
      assert steps[..i] == init[..i];
    }
    if s.Plain? && Fits(After(Start(cap), init)) { assert PlainFits(cap, steps, |init|); }
    if i: nat :| PlainFits(cap, init, i) && f == Frame(None, After(Start(cap), init[..i]).count) {
      assert PlainFits(cap, steps, i);
    }
  }

  lemma OutStep(c: Client, s: Step, f: Frame)
    requires Ok(c) && Enabled(c, s) && f.chan == None && (s.Receive? ==> s.ok)
    ensures f in Out(Apply(c, s)) <==> f in Out(c) || (s.Plain? && Fits(c) && f == Frame(None, c.count))
  {
    hide Ordered, Known, NewestOk;
    if s.Receive? || s.Drain? {
      assert c.queue == [c.queue[0]] + c.queue[1..];
    }
    if s.FlushOne? { assert ParkedOk(c, s.ch); }
  }
}
