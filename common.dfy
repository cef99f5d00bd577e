/** Small value wrappers shared by the subscription modules. */
module Common {

  /** A value that may be absent: JavaScript's `undefined` / `null`. */
  datatype Option<+T> = None | Some(value: T)

  /** The outcome of a step that may fail, usable with `:-`. */
  datatype Result<+R, +E> = Success(value: R) | Failure(error: E) {
    predicate IsFailure() {
      Failure?
    }

    function PropagateFailure<U>(): Result<U, E>
      requires Failure?
    {
      Failure(error)
    }

    function Extract(): R
      requires Success?
    {
      value
    }
  }

  /** What a call into the database or the session provider produced: its value,
      or an exception that the caller catches. */
  datatype Fetch<+T> = Fetched(value: T) | FetchFailed

  /** JavaScript truthiness of an optional string: absent and "" are falsy. */
  predicate Truthy(s: Option<string>) {
    s.Some? && s.value != ""
  }

  // ---------------------------------------------------------------------------
  // Lists of lists

  /** `head` followed by every part, in order. */
  function Concat<T>(head: seq<T>, parts: seq<seq<T>>): seq<T> {
    if parts == [] then head else Concat(head, parts[..|parts| - 1]) + parts[|parts| - 1]
  }

  lemma ConcatPrefix<T>(head: seq<T>, parts: seq<seq<T>>, k: nat)
    requires k < |parts|
    ensures Concat(head, parts[..k + 1]) == Concat(head, parts[..k]) + parts[k]
  {
    assert parts[..k + 1][..k] == parts[..k];
  }

  lemma {:induction false} ConcatEmpty<T>(head: seq<T>, parts: seq<seq<T>>)
    ensures Concat(head, parts) == [] <==> head == [] && forall k :: 0 <= k < |parts| ==> parts[k] == []
  {
    if parts != [] {
      var init := parts[..|parts| - 1];
      ConcatEmpty(head, init);
      assert forall k :: 0 <= k < |init| ==> init[k] == parts[k];
    }
  }

  /** How many entries of `marks` hold. */
  function CountTrue(marks: seq<bool>): nat {
    if marks == [] then 0 else CountTrue(marks[..|marks| - 1]) + (if marks[|marks| - 1] then 1 else 0)
  }

  /** When every part holds `x` once if its mark is set and not at all
      otherwise, the concatenation holds `x` once per set mark beyond `head`. */
  lemma {:induction false} ConcatCount<T>(head: seq<T>, parts: seq<seq<T>>, x: T, marks: seq<bool>)
    requires |marks| == |parts|
    requires forall k :: 0 <= k < |parts| ==> multiset(parts[k])[x] == if marks[k] then 1 else 0
    ensures multiset(Concat(head, parts))[x] == multiset(head)[x] + CountTrue(marks)
  {
    if parts != [] {
      var n := |parts|;
      ConcatCount(head, parts[..n - 1], x, marks[..n - 1]);
    }
  }

  /** A mark sequence with at most position `i` set counts that one mark. */
  lemma {:induction false} CountTrueSingle(marks: seq<bool>, i: nat)
    requires forall k :: 0 <= k < |marks| && marks[k] ==> k == i
    ensures CountTrue(marks) == if i < |marks| && marks[i] then 1 else 0
  {
    if marks != [] {
      var init := marks[..|marks| - 1];
      CountTrueSingle(init, i);
    }
  }
}
