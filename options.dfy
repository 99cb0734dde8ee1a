/** Optional values, and the "first alternative that matched" search used by
    every prioritised cascade of patterns in the agents. */
module Options {

  datatype Option<+T> = None | Some(value: T) {
    /** The value, or a default when there is none (Python's dict.get(key, default)). */
    function GetOr(default: T): T {
      match this
      case Some(v) => v
      case None => default
    }
  }

  /** The first present alternative, trying them in order. */
  function FirstSome<T>(xs: seq<Option<T>>): (r: Option<T>)
    ensures r.None? <==> forall i :: 0 <= i < |xs| ==> xs[i].None?
    ensures r.Some? ==> r in xs
  {
    if |xs| == 0 then None
    else if xs[0].Some? then xs[0]
    else FirstSome(xs[1..])
  }

  /** The alternative at index i wins exactly when every earlier one is absent. */
  lemma {:induction false} FirstSomeAt<T>(xs: seq<Option<T>>, i: nat)
    requires i < |xs| && xs[i].Some?
    requires forall j :: 0 <= j < i ==> xs[j].None?
    ensures FirstSome(xs) == xs[i]
  {
    if i > 0 {
      assert xs[0].None?;
      FirstSomeAt(xs[1..], i - 1);
    }
  }
}
