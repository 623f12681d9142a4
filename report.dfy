/**
  The canonical result record shared by every engine adapter, and the
  report writer seen from the adapters' side: an opaque sink that records
  each batch it is handed.
 */
module Report {
  import opened Wrappers

  /** A point in time; the adapters receive the current time as a parameter. */
  type Instant = int

  /** The closed set of report statuses. */
  datatype Status = PASS | FAIL | SKIP

  /** One executed test case, as handed to the report writer. */
  datatype TestResult = TestResult(
    name: string,
    status: Status,
    start: Instant,
    end: Instant,
    message: Option<string>,
    tags: Option<seq<string>>)

  /** Failure text is cut to this many characters by both adapters. */
  const MaxMessageLength: nat := 2000

  predicate IsPrefix<T(==)>(p: seq<T>, s: seq<T>) {
    |p| <= |s| && s[..|p|] == p
  }

  /** Python's `s[:n]`: the first `n` characters, or all of `s` when shorter. */
  function Truncate(s: string, n: nat): (r: string)
    ensures IsPrefix(r, s)
    ensures |r| <= n
    ensures |s| <= n ==> r == s
    ensures n <= |s| ==> |r| == n
  {
    if |s| <= n then s else s[..n]
  }

  /**
    The record invariants both adapters establish: a message only on a
    failure and never longer than the bound, and no empty tag list (an
    empty one is reported as no tags at all).
   */
  predicate WellFormed(r: TestResult) {
    && (r.message.Some? ==> r.status == FAIL && |r.message.value| <= MaxMessageLength)
    && (r.tags.Some? ==> r.tags.value != [])
  }

  predicate AllWellFormed(rs: seq<TestResult>) {
    forall i :: 0 <= i < |rs| ==> WellFormed(rs[i])
  }

  /** One call of `write_robot_output(suite, results, path)`. */
  datatype WriteCall = WriteCall(suite: string, results: seq<TestResult>, path: string)

  /**
    The report writer as an opaque sink: it remembers every batch it is
    given, in call order. `failing` stands for a writer that raises (for
    example because the destination cannot be written).
   */
  class RobotOutputSink {
    var calls: seq<WriteCall>
    const failing: bool

    constructor (failing: bool)
      ensures calls == [] && this.failing == failing
    {
      calls := [];
      this.failing := failing;
    }

    /** Hands one batch to the writer; `ok` is false when the writer raised. */
    method Write(suite: string, results: seq<TestResult>, path: string) returns (ok: bool)
      modifies this
      ensures calls == old(calls) + [WriteCall(suite, results, path)]
      ensures ok == !failing
    {
      calls := calls + [WriteCall(suite, results, path)];
      ok := !failing;
    }
  }
}
