/** The indicators as the objects that update themselves in place, each proved against its value form. */
module IndicatorObjects {
  import opened Common
  import opened Indicators

  /** A simple moving average over a preallocated ring. */
  class SmaObject {
    var period: nat
    var buf: array<real>
    var idx: nat
    var count: nat
    var sum: real
    var current: real

    ghost predicate Valid()
      reads this, buf
    {
      View().Valid()
    }

    ghost function View(): SmaState
      reads this, buf
    {
      SmaState(period, buf[..], idx, count, sum, current)
    }

    constructor (period: nat)
      requires period >= 1
      ensures Valid() && fresh(buf) && View() == NewSma(period)
    {
      this.period := period;
      buf := new real[period](_ => 0.0);
      idx, count, sum, current := 0, 0, 0.0, 0.0;
    }

    method Update(close: int)
      requires Valid()
      modifies this, buf
      ensures buf == old(buf)
      ensures Valid() && View() == UpdateSma(old(View()), close as real)
    {
      var price := close as real;
      if count >= period {
        sum := sum - buf[idx];
      }
      buf[idx] := price;
      sum := sum + price;
      idx := (idx + 1) % period;
      count := count + 1;
      if count >= period {
        current := sum / period as real;
      }
    }

    method Peek(close: int) returns (value: real)
      requires Valid()
      ensures value == PeekSma(View(), close as real)
    {
      var price := close as real;
      if count < period {
        return (sum + price) / (count + 1) as real;
      }
      return (sum - buf[idx] + price) / period as real;
    }

    /** Reset leaves the ring as NewSma does, so a reset average restarts from nothing. */
    method Reset()
      requires Valid()
      modifies this, buf
      ensures buf == old(buf)
      ensures Valid() && View() == NewSma(old(period))
    {
      idx, count, sum, current := 0, 0, 0.0, 0.0;
      for i := 0 to buf.Length
        invariant period == old(period) && buf == old(buf)
        invariant idx == 0 && count == 0 && sum == 0.0 && current == 0.0
        invariant forall j :: 0 <= j < i ==> buf[j] == 0.0
      {
        buf[i] := 0.0;
      }
    }

    /** Replaces the state by a snapshot's; the ring is copied, never shared. */
    method RestoreFromSnapshot(snap: IndSnap)
      requires snap.Valid() && snap.kind == SMA
      modifies this
      ensures Valid() && fresh(buf) && SmaInd(View()) == Restore(snap)
    {
      period, idx, count, sum, current := snap.period, snap.idx, snap.count, snap.sum, snap.current;
      if |snap.buf| > 0 {
        var copied := new real[|snap.buf|](i requires 0 <= i < |snap.buf| => snap.buf[i]);
        assert copied[..] == snap.buf;
        buf := copied;
      } else {
        buf := new real[snap.period](_ => 0.0);
      }
    }
  }

  class EmaObject {
    var period: nat
    var multiplier: real
    var current: real
    var count: nat
    var sum: real

    ghost function View(): EmaState
      reads this
    {
      EmaState(period, multiplier, count, sum, current)
    }

    constructor (period: nat)
      requires period >= 1
      ensures View() == NewEma(period)
    {
      this.period, multiplier := period, 2.0 / (period + 1) as real;
      current, count, sum := 0.0, 0, 0.0;
    }

    method Update(close: int)
      requires View().Valid()
      modifies this
      ensures View() == UpdateEma(old(View()), close as real)
    {
      hide Blend;
      var price := close as real;
      count := count + 1;
      if count <= period {
        sum := sum + price;
        if count == period {
          current := sum / period as real;
        }
        return;
      }
      current := Blend(price, current, multiplier);
    }
  }

  class SmmaObject {
    var period: nat
    var count: nat
    var sum: real
    var current: real

    ghost function View(): SmmaState
      reads this
    {
      SmmaState(period, count, sum, current)
    }

    constructor (period: nat)
      requires period >= 1
      ensures View() == NewSmma(period)
    {
      this.period, count, sum, current := period, 0, 0.0, 0.0;
    }

    method Update(close: int)
      requires View().Valid()
      modifies this
      ensures View() == UpdateSmma(old(View()), close as real)
    {
      hide Wilder;
      var price := close as real;
      count := count + 1;
      if count <= period {
        sum := sum + price;
        if count == period {
          current := sum / period as real;
        }
        return;
      }
      current := Wilder(current, price, period);
    }
  }

  class RsiObject {
    var period: nat
    var count: nat
    var prevClose: real
    var avgGain: real
    var avgLoss: real
    var current: real

    ghost function View(): RsiState
      reads this
    {
      RsiState(period, count, prevClose, avgGain, avgLoss, current)
    }

    constructor (period: nat)
      requires period >= 1
      ensures View() == NewRsi(period)
    {
      this.period, count := period, 0;
      prevClose, avgGain, avgLoss, current := 0.0, 0.0, 0.0, 0.0;
    }

    method Update(close: int)
      requires View().Valid()
      modifies this
      ensures View() == UpdateRsi(old(View()), close as real)
    {
      hide Wilder, RsiValue;
      var price := close as real;
      count := count + 1;
      if count == 1 {
        prevClose := price;
        return;
      }
      var gain, loss := Gain(prevClose, price), Loss(prevClose, price);
      prevClose := price;
      if count <= period + 1 {
        avgGain, avgLoss := avgGain + gain, avgLoss + loss;
        if count == period + 1 {
          avgGain, avgLoss := avgGain / period as real, avgLoss / period as real;
          current := RsiValue(avgGain, avgLoss);
        }
        return;
      }
      avgGain, avgLoss := Wilder(avgGain, gain, period), Wilder(avgLoss, loss, period);
      current := RsiValue(avgGain, avgLoss);
    }
  }
}
