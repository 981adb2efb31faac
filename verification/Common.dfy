/**
Vocabulary shared by every component: options and results, the order and direction
enumerations of the trading models, and sums over maps of amounts.

Prices, quantities and cash are exact reals; identifiers the program draws from
`uuid4` are natural numbers issued in increasing order.
*/
module Common {

  datatype Option<+T> = None | Some(value: T)

  datatype Result<+T, +E> = Ok(value: T) | Err(error: E)

  datatype Direction = LONG | SHORT {
    /** +1 for a long, -1 for a short. */
    function Sign(): real {
      if LONG? then 1.0 else -1.0
    }

    function Opposite(): Direction {
      if LONG? then SHORT else LONG
    }
  }

  datatype OrderStatus =
    | CREATED | VALIDATING | RISK_APPROVED | SUBMITTED | ACKNOWLEDGED
    | PARTIALLY_FILLED | FILLED | MONITORING | CLOSED
    | REJECTED | CANCELLED | EXPIRED | FAILED

  datatype OrderType = MARKET | LIMIT | SL | SL_M

  /** Orders and fills are for positive quantities. */
  type Quantity = q: real | q > 0.0 witness 1.0

  function Abs(x: real): real {
    if x < 0.0 then -x else x
  }

  function Min(x: real, y: real): real {
    if x <= y then x else y
  }

  function Max(x: real, y: real): real {
    if x >= y then x else y
  }

  lemma DivMul(x: real, y: real)
    requires y > 0.0
    ensures x / y * y == x
  {}

  lemma DivOrder(x: real, y: real, z: real)
    requires y > 0.0
    ensures x <= z * y <==> x / y <= z
    ensures z * y <= x <==> z <= x / y
  {
    DivMul(x, y);
    if x / y < z {
      assert x / y * y < z * y;
    } else if x / y > z {
      assert x / y * y > z * y;
    }
  }

  /** The sum of a sequence of amounts, first to last. */
  function Sum(xs: seq<real>): real {
    if xs == [] then 0.0 else xs[0] + Sum(xs[1..])
  }

  lemma {:induction false} SumAppend(xs: seq<real>, y: real)
    ensures Sum(xs + [y]) == Sum(xs) + y
  {
    if xs == [] {
      assert xs + [y] == [y];
    } else {
      assert (xs + [y])[1..] == xs[1..] + [y];
      SumAppend(xs[1..], y);
    }
  }

  function MaxOf(w: seq<real>): real
    requires w != []
  {
    if |w| == 1 then w[0] else Max(MaxOf(w[..|w| - 1]), w[|w| - 1])
  }

  function MinOf(w: seq<real>): real
    requires w != []
  {
    if |w| == 1 then w[0] else Min(MinOf(w[..|w| - 1]), w[|w| - 1])
  }

  lemma {:induction false} MaxIsUpper(w: seq<real>)
    requires w != []
    ensures forall j :: 0 <= j < |w| ==> w[j] <= MaxOf(w)
    ensures exists j :: 0 <= j < |w| && w[j] == MaxOf(w)
  {
    if |w| == 1 {
      assert w[0] == MaxOf(w);
    } else {
      var rest := w[..|w| - 1];
      MaxIsUpper(rest);
      var j :| 0 <= j < |rest| && rest[j] == MaxOf(rest);
      assert w[j] == MaxOf(rest) && w[|w| - 1] == w[|w| - 1];
    }
  }

  lemma {:induction false} MinIsLower(w: seq<real>)
    requires w != []
    ensures forall j :: 0 <= j < |w| ==> w[j] >= MinOf(w)
    ensures exists j :: 0 <= j < |w| && w[j] == MinOf(w)
  {
    if |w| == 1 {
      assert w[0] == MinOf(w);
    } else {
      var rest := w[..|w| - 1];
      MinIsLower(rest);
      var j :| 0 <= j < |rest| && rest[j] == MinOf(rest);
      assert w[j] == MinOf(rest) && w[|w| - 1] == w[|w| - 1];
    }
  }

  /** The sum of the amounts a map holds, in whatever order they are visited. */
  ghost function Total<K>(m: map<K, real>): real
    decreases |m|
  {
    if m == map[] then
      0.0
    else
      var k :| k in m;
      assert (m - {k}).Keys == m.Keys - {k};
      m[k] + Total(m - {k})
  }

  /** Any key may be taken out first. */
  lemma {:induction false} TotalRemove<K>(m: map<K, real>, k: K)
    requires k in m
    ensures Total(m) == m[k] + Total(m - {k})
    decreases |m|
  {
    var first :| first in m && Total(m) == m[first] + Total(m - {first});
    if first != k {
      assert (m - {first}).Keys == m.Keys - {first};
      assert (m - {k}).Keys == m.Keys - {k};
      TotalRemove(m - {first}, k);
      TotalRemove(m - {k}, first);
      assert m - {first} - {k} == m - {k} - {first};
    }
  }

  lemma TotalUpdate<K>(m: map<K, real>, k: K, v: real)
    ensures Total(m[k := v]) == Total(m) - (if k in m then m[k] else 0.0) + v
  {
    var updated := m[k := v];
    TotalRemove(updated, k);
    if k in m {
      TotalRemove(m, k);
      assert updated - {k} == m - {k};
    } else {
      assert updated - {k} == m;
    }
  }
}
