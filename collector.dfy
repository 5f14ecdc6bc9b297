/**
 * The item collector a listing extractor fills while it walks one payload.
 * Each commit hands it the outcome of extracting one entry: the extracted
 * item, or the parsing fault that extraction raised.
 */
module Collector {
  import opened Wrappers
  import opened Exceptions

  /** The successfully extracted items among `outcomes`, in commit order. */
  function ItemsOf<T>(outcomes: seq<Result<T, Fault>>): seq<T>
    decreases |outcomes|
  {
    if outcomes == [] then []
    else
      var last := outcomes[|outcomes| - 1];
      ItemsOf(outcomes[..|outcomes| - 1]) + (if last.Ok? then [last.value] else [])
  }

  /** The faults among `outcomes`, in commit order. */
  function ErrorsOf<T>(outcomes: seq<Result<T, Fault>>): seq<Fault>
    decreases |outcomes|
  {
    if outcomes == [] then []
    else
      var last := outcomes[|outcomes| - 1];
      ErrorsOf(outcomes[..|outcomes| - 1]) + (if last.Err? then [last.error] else [])
  }

  lemma {:induction false} ItemsOfAppend<T>(a: seq<Result<T, Fault>>, b: seq<Result<T, Fault>>)
    ensures ItemsOf(a + b) == ItemsOf(a) + ItemsOf(b)
    decreases |b|
  {
    if b == [] {
      assert a + b == a;
    } else {
      var b' := b[..|b| - 1];
      assert (a + b)[..|a + b| - 1] == a + b';
      ItemsOfAppend(a, b');
    }
  }

  lemma {:induction false} ErrorsOfAppend<T>(a: seq<Result<T, Fault>>, b: seq<Result<T, Fault>>)
    ensures ErrorsOf(a + b) == ErrorsOf(a) + ErrorsOf(b)
    decreases |b|
  {
    if b == [] {
      assert a + b == a;
    } else {
      var b' := b[..|b| - 1];
      assert (a + b)[..|a + b| - 1] == a + b';
      ErrorsOfAppend(a, b');
    }
  }

  /** Every commit adds exactly one item or exactly one error, never both. */
  lemma {:induction false} OutcomesPartition<T>(outcomes: seq<Result<T, Fault>>)
    ensures |ItemsOf(outcomes)| + |ErrorsOf(outcomes)| == |outcomes|
    decreases |outcomes|
  {
    if outcomes != [] {
      OutcomesPartition(outcomes[..|outcomes| - 1]);
    }
  }

  class InfoItemsCollector<T> {
    var items: seq<T>
    var errors: seq<Fault>

    constructor ()
      ensures items == [] && errors == []
    {
      items := [];
      errors := [];
    }

    /** Records one extraction outcome: an item is appended to the items, a fault to the errors. */
    method Commit(outcome: Result<T, Fault>)
      modifies this
      ensures items == old(items) + ItemsOf([outcome])
      ensures errors == old(errors) + ErrorsOf([outcome])
    {
      assert [outcome][..0] == [];
      match outcome
      case Ok(item) => items := items + [item];
      case Err(fault) => errors := errors + [fault];
    }
  }
}
