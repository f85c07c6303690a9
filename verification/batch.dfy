/**
 * The queued-message path of AbstractRestApiRequestHandler.handleRequest: the records whose
 * event source is "aws:sqs" are handed, in order, to handleSqsRequest; an exception from
 * handleSqsRequest ends the loop and the invocation.
 */
module Batch {
  import opened Wrappers
  import opened ApiTypes

  const SqsSource := "aws:sqs"

  predicate IsSqs(r: Record) {
    r.eventSource == Some(SqsSource)
  }

  /** `r` is handed to handleSqsRequest, which throws on it. */
  predicate Fails(r: Record, handleSqs: Record -> bool) {
    IsSqs(r) && !handleSqs(r)
  }

  /** The records of the batch from the queue, in input order. */
  function SqsRecords(rs: seq<Record>): (out: seq<Record>)
    ensures |out| <= |rs|
    ensures forall r :: r in out ==> r in rs && IsSqs(r)
    ensures forall r :: r in rs && IsSqs(r) ==> r in out
  {
    if rs == [] then []
    else (if IsSqs(rs[0]) then [rs[0]] else []) + SqsRecords(rs[1..])
  }

  /** Selection keeps input order: it distributes over concatenation. */
  lemma {:induction false} SqsRecordsAppend(a: seq<Record>, b: seq<Record>)
    ensures SqsRecords(a + b) == SqsRecords(a) + SqsRecords(b)
  {
    if a == [] {
      assert a + b == b;
    } else {
      assert (a + b)[0] == a[0];
      assert (a + b)[1..] == a[1..] + b;
      SqsRecordsAppend(a[1..], b);
    }
  }

  /** The calls the loop makes: each queue record in order, up to and including the first that throws. */
  function BatchCalls(rs: seq<Record>, handleSqs: Record -> bool): seq<Record> {
    if rs == [] then []
    else if !IsSqs(rs[0]) then BatchCalls(rs[1..], handleSqs)
    else if handleSqs(rs[0]) then [rs[0]] + BatchCalls(rs[1..], handleSqs)
    else [rs[0]]
  }

  /** One step of the loop: the first record, then the rest. */
  lemma BatchStep(rs: seq<Record>, handleSqs: Record -> bool)
    requires rs != []
    ensures BatchCalls(rs, handleSqs) ==
              if !IsSqs(rs[0]) then BatchCalls(rs[1..], handleSqs)
              else if handleSqs(rs[0]) then [rs[0]] + BatchCalls(rs[1..], handleSqs)
              else [rs[0]]
    ensures BatchAborts(rs, handleSqs) == (Fails(rs[0], handleSqs) || BatchAborts(rs[1..], handleSqs))
  {
  }

  /** The records the loop hands on are a prefix of the queue records. */
  lemma {:induction false} BatchCallsPrefix(rs: seq<Record>, handleSqs: Record -> bool)
    ensures BatchCalls(rs, handleSqs) <= SqsRecords(rs)
  {
    if rs != [] {
      BatchCallsPrefix(rs[1..], handleSqs);
    }
  }

  /** Some call of the loop throws, so the invocation fails. */
  predicate BatchAborts(rs: seq<Record>, handleSqs: Record -> bool) {
    rs != [] && (Fails(rs[0], handleSqs) || BatchAborts(rs[1..], handleSqs))
  }

  /** The invocation fails exactly when some queue record's handling throws. */
  lemma {:induction false} BatchAbortsIff(rs: seq<Record>, handleSqs: Record -> bool)
    ensures BatchAborts(rs, handleSqs) <==> exists i :: 0 <= i < |rs| && Fails(rs[i], handleSqs)
  {
    if rs != [] {
      BatchAbortsIff(rs[1..], handleSqs);
      if exists i :: 0 <= i < |rs| && Fails(rs[i], handleSqs) {
        var i :| 0 <= i < |rs| && Fails(rs[i], handleSqs);
        if i > 0 {
          assert Fails(rs[1..][i - 1], handleSqs);
        }
      }
      if BatchAborts(rs[1..], handleSqs) {
        var i :| 0 <= i < |rs[1..]| && Fails(rs[1..][i], handleSqs);
        assert Fails(rs[i + 1], handleSqs);
      }
    }
  }

  /** When no handling throws, exactly the queue records are handled, in input order. */
  lemma {:induction false} BatchWithoutFailure(rs: seq<Record>, handleSqs: Record -> bool)
    requires forall r :: r in rs && IsSqs(r) ==> handleSqs(r)
    ensures BatchCalls(rs, handleSqs) == SqsRecords(rs)
    ensures !BatchAborts(rs, handleSqs)
  {
    if rs != [] {
      assert forall r :: r in rs[1..] ==> r in rs;
      BatchWithoutFailure(rs[1..], handleSqs);
    }
  }

  /**
   * When the k-th record is the first whose handling throws, the records handled are the
   * queue records up to and including it.
   */
  lemma {:induction false} BatchStopsAtFirstFailure(rs: seq<Record>, handleSqs: Record -> bool, k: nat)
    requires k < |rs| && Fails(rs[k], handleSqs)
    requires forall j :: 0 <= j < k ==> !Fails(rs[j], handleSqs)
    ensures BatchCalls(rs, handleSqs) == SqsRecords(rs[..k + 1])
    ensures BatchAborts(rs, handleSqs)
  {
    if k == 0 {
      assert rs[..1] == [rs[0]];
      assert SqsRecords(rs[..1]) == [rs[0]] + SqsRecords(rs[..1][1..]);
      assert rs[..1][1..] == [];
    } else {
      assert !Fails(rs[0], handleSqs);
      forall j | 0 <= j < k - 1 ensures !Fails(rs[1..][j], handleSqs) {
        assert rs[1..][j] == rs[j + 1];
      }
      BatchStopsAtFirstFailure(rs[1..], handleSqs, k - 1);
      assert rs[..k + 1][0] == rs[0];
      assert rs[..k + 1][1..] == rs[1..][..k];
    }
  }
}
