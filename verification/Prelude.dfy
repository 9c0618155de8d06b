/** Vocabulary shared by every model in this project. */
module Prelude {

  datatype Option<+T> = None | Some(value: T)

  function Bit(b: bool): nat { if b then 1 else 0 }

  /** How often `x` occurs in a history, counted from its newest entry. */
  function Count<T(==)>(history: seq<T>, x: T): nat {
    if history == [] then 0
    else Count(history[..|history| - 1], x) + if history[|history| - 1] == x then 1 else 0
  }

  lemma CountAppend<T>(history: seq<T>, e: T, x: T)
    ensures Count(history + [e], x) == Count(history, x) + if e == x then 1 else 0
  {
    assert (history + [e])[..|history|] == history;
  }

  /** A counted entry is somewhere in the history. */
  lemma {:induction false} CountWitness<T>(history: seq<T>, x: T)
    ensures Count(history, x) > 0 <==> x in history
  {
    if history != [] {
      var init := history[..|history| - 1];
      CountWitness(init, x);
      assert history == init + [history[|history| - 1]];
    }
  }
}
