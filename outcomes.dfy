/** Error values and the small wrappers the toolkit's operations return in
    place of Python exceptions. */
module Outcomes {

  /** The exceptions the toolkit raises (or lets escape) in its core. */
  datatype Error =
    | TypeError            // a non-Widget assigned into a Window
    | KeyError             // a missing key read from or deleted from a Window
    | ValueError           // a Button built with a state outside ALLOWED_STATES
    | AttributeError       // a read of an attribute the object never set
    | NotImplementedError  // the base Widget's abstract draw and feed
    | NotAllowedError      // an assignment to Window.duration

  datatype Option<+T> = None | Some(value: T)

  datatype Result<+T> = Ok(value: T) | Fail(error: Error)

  /** The result of an operation that returns nothing or raises. */
  datatype Outcome = Pass | Raise(error: Error)

  /** "None means keep": the value a configure call stores for one attribute. */
  function Keep<T>(given: Option<T>, current: T): T
  {
    if given.Some? then given.value else current
  }

  /** No element occurs twice: the last one is not among those before it,
      and none of those occurs twice. */
  predicate Distinct<T(==)>(s: seq<T>)
    decreases |s|
  {
    |s| == 0 || (s[|s| - 1] !in s[..|s| - 1] && Distinct(s[..|s| - 1]))
  }

  /** In a sequence without repeats, elements at different indexes differ. */
  lemma {:induction false} DistinctIndex<T>(s: seq<T>, i: nat, j: nat)
    requires Distinct(s) && i < |s| && j < |s| && i != j
    ensures s[i] != s[j]
    decreases |s|
  {
    var n := |s| - 1;
    if i < n && j < n {
      assert s[..n][i] == s[i] && s[..n][j] == s[j];
      DistinctIndex(s[..n], i, j);
    } else if i < n {
      assert s[..n][i] == s[i];
    } else {
      assert s[..n][j] == s[j];
    }
  }

}
