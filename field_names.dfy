/**
 * How the JSON and XML extractors collect the field names of their input:
 * each name is appended unless the list already holds it, so the list keeps
 * the first-seen order and no name twice.
 */
module FieldNames {
  predicate NoDuplicates(names: seq<string>)
  {
    forall i, j :: 0 <= i < j < |names| ==> names[i] != names[j]
  }

  /** `if (!fieldNames.contains(name)) fieldNames.add(name)`. */
  function AddOne(names: seq<string>, name: string): (r: seq<string>)
  {
    if name in names then names else names + [name]
  }

  /** `AddOne` for each of `more`, front to back. */
  function AddNew(names: seq<string>, more: seq<string>): (r: seq<string>)
    decreases |more|
  {
    if |more| == 0 then names else AddOne(AddNew(names, more[..|more| - 1]), more[|more| - 1])
  }

  /**
   * The reference reading: the names of `more` that are neither in `names`
   * nor earlier in `more`, in the order of `more`.
   */
  function FirstSeen(names: seq<string>, more: seq<string>): (r: seq<string>)
    decreases |more|
  {
    if |more| == 0 then []
    else
      var last := more[|more| - 1];
      var prefix := more[..|more| - 1];
      FirstSeen(names, prefix) + (if last !in names && last !in prefix then [last] else [])
  }

  /** A name is in the result exactly when it was in either list. */
  lemma {:induction false} AddNewMembers(names: seq<string>, more: seq<string>)
    ensures forall n :: n in AddNew(names, more) <==> n in names || n in more
    decreases |more|
  {
    if |more| > 0 {
      var prefix := more[..|more| - 1];
      AddNewMembers(names, prefix);
      assert more == prefix + [more[|more| - 1]];
    }
  }

  /** The collected list is the old list followed by the first occurrences of the new names. */
  lemma {:induction false} AddNewIsFirstSeen(names: seq<string>, more: seq<string>)
    ensures AddNew(names, more) == names + FirstSeen(names, more)
    decreases |more|
  {
    if |more| > 0 {
      var prefix := more[..|more| - 1];
      AddNewIsFirstSeen(names, prefix);
      AddNewMembers(names, prefix);
    }
  }

  /** Collecting two lists in turn is collecting their concatenation. */
  lemma {:induction false} AddNewConcat(names: seq<string>, a: seq<string>, b: seq<string>)
    ensures AddNew(names, a + b) == AddNew(AddNew(names, a), b)
    decreases |b|
  {
    if |b| == 0 {
      assert a + b == a;
    } else {
      var prefix := b[..|b| - 1];
      assert (a + b)[..|a + b| - 1] == a + prefix;
      AddNewConcat(names, a, prefix);
    }
  }

  /** The inner loop of the extractors: `AddOne` for each name of `more`. */
  method AddFieldNames(names: seq<string>, more: seq<string>) returns (r: seq<string>)
    ensures r == AddNew(names, more)
  {
    r := names;
    var j := 0;
    while j < |more|
      invariant 0 <= j <= |more|
      invariant r == AddNew(names, more[..j])
    {
      assert more[..j + 1][..j] == more[..j];
      if more[j] !in r {
        r := r + [more[j]];
      }
      j := j + 1;
    }
    assert more[..j] == more;
  }

  /** Starting from a list without repeats, the result has none. */
  lemma {:induction false} AddNewNoDuplicates(names: seq<string>, more: seq<string>)
    requires NoDuplicates(names)
    ensures NoDuplicates(AddNew(names, more))
    decreases |more|
  {
    if |more| > 0 {
      AddNewNoDuplicates(names, more[..|more| - 1]);
    }
  }
}
