/** Small value types shared by every part of the model. */
module Common {

  /** A value that may be absent (a missing dictionary key, a lookup that found nothing). */
  datatype Option<+T> = None | Some(value: T) {
    function GetOr(default: T): T {
      match this
      case Some(v) => v
      case None => default
    }
  }

  /** The outcome of a call into a store or service that may fail. */
  datatype Result<+T> = Success(value: T) | Failure

  /** The three kinds of turn in a front end's message-count funnel: an ordinary reply, the
      one-time "semi" teaser, and the final redirect. */
  datatype Step = Normal | Semi | Last

  /** The map lookup `d.get(k, default)`. */
  function Get<K, V>(m: map<K, V>, k: K, default: V): (v: V)
    ensures k in m ==> v == m[k]
    ensures k !in m ==> v == default
  {
    if k in m then m[k] else default
  }

  /**
   * `random.choice(xs)` with the random draw made explicit: the caller supplies
   * the draw `pick`, and every candidate is the answer for some draw.
   */
  function Choose<T>(xs: seq<T>, pick: nat): (x: T)
    requires |xs| > 0
    ensures x in xs
  {
    xs[Wrap(pick, |xs|)]
  }

  /** The draw brought into range: `pick` modulo `n`, by repeated subtraction. */
  function Wrap(pick: nat, n: nat): (k: nat)
    requires n > 0
    ensures k < n
    ensures pick < n ==> k == pick
    decreases pick
  {
    if pick < n then pick else Wrap(pick - n, n)
  }

  /** Every candidate of a `random.choice` is reachable by some draw. */
  lemma ChooseReaches<T>(xs: seq<T>, i: nat)
    requires i < |xs|
    ensures Choose(xs, i) == xs[i]
  {
  }
}
