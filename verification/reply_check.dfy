/**
 The check a driver makes on the reply to a read or a write: results may come in
 any order, but every requested point is answered exactly once
 (pluginhost/remote.go, pluginhost/remote_writable.go).
 */
module ReplyCheck {

  import opened Wrappers

  datatype ReplyError = WrongCount | UnknownId(at: nat) | Repeated(at: nat)

  /** What is still outstanding once the first n results have been ticked off. */
  ghost predicate Outstanding(want: map<string, nat>, asked: seq<string>, results: seq<string>, n: nat)
    requires n <= |results|
  {
    && (forall id :: id in want <==> id in multiset(asked))
    && (forall id :: id in want ==> want[id] + multiset(results[..n])[id] == multiset(asked)[id])
  }

  method CountAsked(asked: seq<string>) returns (want: map<string, nat>)
    ensures forall id :: id in want <==> id in multiset(asked)
    ensures forall id :: id in want ==> want[id] == multiset(asked)[id]
  {
    want := map[];
    assert asked[..0] == [];
    for i := 0 to |asked|
      invariant forall id :: id in want <==> id in multiset(asked[..i])
      invariant forall id :: id in want ==> want[id] == multiset(asked[..i])[id]
    {
      var id := asked[i];
      assert asked[..i + 1] == asked[..i] + [id];
      want := want[id := (if id in want then want[id] else 0) + 1];
    }
    assert asked[..|asked|] == asked;
  }

  /** Fewer results than requests in every id, and as many in all: the two agree. */
  lemma SameMultiset(a: multiset<string>, b: multiset<string>)
    requires b <= a && |a| == |b|
    ensures a == b
  {
    assert a == b + (a - b);
  }

  /**
   A reply is accepted exactly when every requested point is answered once, in
   any order; otherwise the first offending result is named.
   */
  method CheckReply(asked: seq<string>, results: seq<string>) returns (r: Result<seq<string>, ReplyError>)
    ensures r.Success? <==> multiset(asked) == multiset(results)
    ensures r.Success? ==> r.value == results
    ensures r == Failure(WrongCount) <==> |asked| != |results|
    ensures r.Failure? && r.error.UnknownId? ==>
              && r.error.at < |results| && results[r.error.at] !in asked
              && multiset(results[..r.error.at]) <= multiset(asked)
    ensures r.Failure? && r.error.Repeated? ==>
              && r.error.at < |results| && results[r.error.at] in asked
              && multiset(results[..r.error.at]) <= multiset(asked)
              && multiset(results[..r.error.at + 1])[results[r.error.at]] > multiset(asked)[results[r.error.at]]
  {
    if |results| != |asked| {
      assert |multiset(asked)| != |multiset(results)|;
      return Failure(WrongCount);
    }
    var want := CountAsked(asked);
    assert results[..0] == [];
    for i := 0 to |results|
      invariant Outstanding(want, asked, results, i)
      invariant multiset(results[..i]) <= multiset(asked)
    {
      var id := results[i];
      assert results[..i + 1] == results[..i] + [id];
      assert results == results[..i + 1] + results[i + 1..];
      if id !in want {
        assert id in multiset(results);
        return Failure(UnknownId(i));
      }
      if want[id] == 0 {
        assert multiset(results)[id] >= multiset(results[..i + 1])[id];
        return Failure(Repeated(i));
      }
      want := want[id := want[id] - 1];
    }
    assert results[..|results|] == results;
    SameMultiset(multiset(asked), multiset(results));
    return Success(results);
  }
}
