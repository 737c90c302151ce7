/**
 * `ValidableEntity`: `valid?` runs the entity's `validate`, which appends one
 * pass of errors to the memoised list, then reports whether the list is empty.
 * The list is never cleared, so repeated calls keep appending. Each validator
 * class of this model keeps its list in a `ValidationErrors` object and
 * promises `errors == old(errors) + pass` for one call of `IsValid`; the
 * functions here describe what a sequence of such calls does.
 */
module Validable {
  import opened Validation

  /** The error list after `k` calls of `valid?`, starting from `start`, when each `validate` appends `pass`. */
  function AfterCalls(start: seq<ErrorTag>, pass: seq<ErrorTag>, k: nat): seq<ErrorTag>
  {
    if k == 0 then start else AfterCalls(start, pass, k - 1) + pass
  }

  /** Each call adds exactly one pass worth of errors. */
  lemma {:induction false} AfterCallsLength(start: seq<ErrorTag>, pass: seq<ErrorTag>, k: nat)
    ensures |AfterCalls(start, pass, k)| == |start| + k * |pass|
  {
    if k > 0 {
      AfterCallsLength(start, pass, k - 1);
      assert k * |pass| == (k - 1) * |pass| + |pass|;
    }
  }

  /** Errors are never cleared: an earlier list is a prefix of every later one. */
  lemma {:induction false} ErrorsNeverCleared(start: seq<ErrorTag>, pass: seq<ErrorTag>, j: nat, k: nat)
    requires j <= k
    ensures AfterCalls(start, pass, j) <= AfterCalls(start, pass, k)
  {
    if j < k {
      ErrorsNeverCleared(start, pass, j, k - 1);
    }
  }

  /** Once `valid?` has answered false, every later call on the same entity answers false. */
  lemma OnceInvalidStaysInvalid(start: seq<ErrorTag>, pass: seq<ErrorTag>, j: nat, k: nat)
    requires 1 <= j <= k
    requires AfterCalls(start, pass, j) != []
    ensures AfterCalls(start, pass, k) != []
  {
    ErrorsNeverCleared(start, pass, j, k);
  }

  /** `valid?` is not idempotent on an invalid entity: every call grows the list. */
  lemma EveryCallGrows(start: seq<ErrorTag>, pass: seq<ErrorTag>, k: nat)
    requires pass != []
    ensures |AfterCalls(start, pass, k + 1)| > |AfterCalls(start, pass, k)|
  {
  }

  /** An entity whose `validate` appends nothing keeps its list unchanged. */
  lemma {:induction false} CleanPassKeepsList(start: seq<ErrorTag>, k: nat)
    ensures AfterCalls(start, [], k) == start
  {
    if k > 0 {
      CleanPassKeepsList(start, k - 1);
    }
  }

  /** On a new entity, the k-th `valid?` (k >= 1) answers true iff its pass appends nothing. */
  lemma FreshEntityValidIff(pass: seq<ErrorTag>, k: nat)
    requires k >= 1
    ensures AfterCalls([], pass, k) == [] <==> pass == []
  {
    AfterCallsLength([], pass, k);
    if pass != [] {
      assert k * |pass| >= |pass|;
    }
  }
}
