/** The columns of a candle history that the indicators consume. */
module Feeds {
  import opened Trading
  import opened Arithmetic
  import opened Oscillators

  function Closes(cs: seq<Candle>): (s: seq<real>)
    ensures |s| == |cs| && forall i :: 0 <= i < |cs| ==> s[i] == cs[i].close
  {
    seq(|cs|, i requires 0 <= i < |cs| => cs[i].close)
  }

  function Volumes(cs: seq<Candle>): seq<real> {
    seq(|cs|, i requires 0 <= i < |cs| => cs[i].volume)
  }

  function Trades(cs: seq<Candle>): seq<(real, real)> {
    seq(|cs|, i requires 0 <= i < |cs| => (cs[i].close, cs[i].volume))
  }

  function Bars(cs: seq<Candle>): seq<Hlc> {
    seq(|cs|, i requires 0 <= i < |cs| => Hlc(cs[i].High(), cs[i].Low(), cs[i].close))
  }

  lemma NoColumns()
    ensures Closes([]) == [] && Volumes([]) == [] && Trades([]) == [] && Bars([]) == []
  {
  }

  lemma ColumnsGrow(cs: seq<Candle>, c: Candle)
    ensures Closes(cs + [c]) == Closes(cs) + [c.close]
    ensures Volumes(cs + [c]) == Volumes(cs) + [c.volume]
    ensures Trades(cs + [c]) == Trades(cs) + [(c.close, c.volume)]
    ensures Bars(cs + [c]) == Bars(cs) + [Hlc(c.High(), c.Low(), c.close)]
  {
  }

  /** A percentage of a positive base, without the division. */
  lemma PctExactly(x: real, base: real)
    requires base > 0.0
    ensures Times(PctOf(x, base), base) == Times(100.0, x)
  {
    Quotient(x, base);
    var q := x / base;
    assert (q * 100.0) * base == 100.0 * (q * base);
  }

  function PctOf(x: real, base: real): real
    requires base != 0.0
  {
    x / base * 100.0
  }
}
