/**
 * The bounded transaction history every account keeps for its mini
 * statement: entries are appended at the end and, once more than
 * `Capacity` of them exist, the oldest one is dropped.
 */
module TransactionLog {

  /** How many entries a log keeps. */
  const Capacity: nat := 5

  /** The last `n` elements of `s` (all of `s` when it is shorter). */
  function LastN<T>(s: seq<T>, n: nat): (r: seq<T>)
    ensures |r| == if |s| < n then |s| else n
  {
    if |s| <= n then s else s[|s| - n..]
  }

  /**
   * Adding one entry: append, then drop the first element when the
   * list has grown past `Capacity`.
   */
  function Record<T>(log: seq<T>, e: T): (r: seq<T>)
    ensures |r| > 0 && r[|r| - 1] == e
    ensures |log| <= Capacity ==> |r| <= Capacity && r == LastN(log + [e], Capacity)
  {
    var grown := log + [e];
    if |grown| > Capacity then grown[1..] else grown
  }

  /**
   * The oldest entry goes exactly when the log already held `Capacity`
   * (or more) entries; otherwise nothing is dropped.
   */
  lemma RecordEvictsOldest<T>(log: seq<T>, e: T)
    ensures |log| < Capacity ==> Record(log, e) == log + [e]
    ensures |log| >= Capacity ==> Record(log, e) == log[1..] + [e]
  {
  }

  /** Adding the entries of `es` one after the other, oldest first. */
  function RecordAll<T>(log: seq<T>, es: seq<T>): seq<T>
    decreases |es|
  {
    if es == [] then log else RecordAll(Record(log, es[0]), es[1..])
  }

  /** Truncating early and truncating once at the end agree. */
  lemma LastNTwice<T>(s: seq<T>, t: seq<T>, n: nat)
    ensures LastN(LastN(s, n) + t, n) == LastN(s + t, n)
  {
  }

  /**
   * After any series of additions to a log that was within capacity,
   * the log holds the newest `Capacity` entries in insertion order,
   * oldest first.
   */
  lemma {:induction false} RecordAllKeepsNewest<T>(log: seq<T>, es: seq<T>)
    requires |log| <= Capacity
    ensures RecordAll(log, es) == LastN(log + es, Capacity)
    decreases |es|
  {
    if es == [] {
      assert log + es == log;
    } else {
      var grown, rest := log + [es[0]], es[1..];
      var head := Record(log, es[0]);
      RecordAllKeepsNewest(head, rest);
      LastNTwice(grown, rest, Capacity);
      assert grown + rest == log + es;
    }
  }
}
