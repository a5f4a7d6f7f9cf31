/** Counting over logs. */
module Traces {

  /** How many entries of a log are picked. */
  ghost function Count<T>(log: seq<T>, picks: T -> bool): nat {
    if log == [] then 0 else Count(log[..|log| - 1], picks) + if picks(log[|log| - 1]) then 1 else 0
  }

  lemma CountOneMore<T>(log: seq<T>, last: T, picks: T -> bool)
    ensures Count(log + [last], picks) == Count(log, picks) + if picks(last) then 1 else 0
  {
    assert (log + [last])[..|log|] == log;
  }
}
