// agentgate/internal/relations/relations.go
module Relations {
  import opened Wrappers
  import opened Policy
  import opened Store

  // ---- The graph as its history ------------------------------------------

  datatype Update = Touch(edge: Edge) | Delete(edge: Edge)

  function Applied(edges: set<Edge>, u: Update): set<Edge> {
    match u
    case Touch(e) => edges + {e}
    case Delete(e) => edges - {e}
  }

  function Replay(history: seq<Update>): set<Edge> {
    if history == [] then {} else Applied(Replay(history[..|history| - 1]), history[|history| - 1])
  }

  // The last operation on `edge` wrote it.
  ghost predicate LastGranted(history: seq<Update>, edge: Edge) {
    exists k :: 0 <= k < |history| && history[k] == Touch(edge)
                && forall l :: k < l < |history| ==> history[l] != Delete(edge)
  }

  // After any sequence of grants and revokes, the graph holds exactly the edges last granted.
  lemma {:induction false} GraphRefinesHistory(history: seq<Update>, edge: Edge)
    ensures edge in Replay(history) <==> LastGranted(history, edge)
    decreases |history|
  {
    if history != [] {
      var n := |history| - 1;
      var before := history[..n];
      GraphRefinesHistory(before, edge);
      if LastGranted(before, edge) && history[n] != Delete(edge) {
        var k :| 0 <= k < |before| && before[k] == Touch(edge) && forall l :: k < l < |before| ==> before[l] != Delete(edge);
        assert history[k] == Touch(edge);
      }
      if LastGranted(history, edge) && history[n] != Touch(edge) {
        var k :| 0 <= k < |history| && history[k] == Touch(edge) && forall l :: k < l < |history| ==> history[l] != Delete(edge);
        assert before[k] == Touch(edge);
      }
    }
  }

  // ---- The client --------------------------------------------------------

  // `stream` lists each of `edges` once, in whatever order the graph sends them.
  predicate Enumerates(stream: seq<Edge>, edges: set<Edge>) {
    && (forall e :: e in edges ==> e in stream) && (forall e :: e in stream ==> e in edges)
    && (forall i, j :: 0 <= i < j < |stream| ==> stream[i] != stream[j])
  }

  class Client {
    var edges: set<Edge>
    ghost var history: seq<Update>

    ghost predicate Valid()
      reads this
    {
      edges == Replay(history)
    }

    constructor ()
      ensures Valid() && edges == {} && history == []
    {
      edges, history := {}, [];
    }

    // Grant and Revoke return whether the write was reported; a lost write may or may not have landed.
    method Grant(user: string, record: string) returns (ok: bool, o: Outcome)
      requires Valid()
      modifies this
      ensures Valid() && (ok <==> o.Done?)
      ensures edges == (if o.Refused? then old(edges) else old(edges) + {Edge(user, record)})
      ensures history == (if o.Refused? then old(history) else old(history) + [Touch(Edge(user, record))])
    {
      var oc: Outcome := *;
      ok, o := oc.Done?, oc;
      if !oc.Refused? {
        edges := edges + {Edge(user, record)};
        history := history + [Touch(Edge(user, record))];
        assert history[..|history| - 1] == old(history);
      }
    }

    method Revoke(user: string, record: string) returns (ok: bool, o: Outcome)
      requires Valid()
      modifies this
      ensures Valid() && (ok <==> o.Done?)
      ensures edges == (if o.Refused? then old(edges) else old(edges) - {Edge(user, record)})
      ensures history == (if o.Refused? then old(history) else old(history) + [Delete(Edge(user, record))])
    {
      var oc: Outcome := *;
      ok, o := oc.Done?, oc;
      if !oc.Refused? {
        edges := edges - {Edge(user, record)};
        history := history + [Delete(Edge(user, record))];
        assert history[..|history| - 1] == old(history);
      }
    }

    // A fully consistent read; no answer on an error.
    method CheckOwner(user: string, record: string) returns (owns: Option<bool>, ghost o: Outcome)
      ensures owns == if o.Done? then Some(Edge(user, record) in edges) else None
    {
      var oc: Outcome := *;
      owns, o := if oc.Done? then Some(Edge(user, record) in edges) else None, oc;
    }

    // Recv fails after `limit` edges, or at the end of the stream, and either way the list just ends.
    method List(stream: seq<Edge>, limit: nat) returns (out: seq<Edge>)
      requires Valid() && Enumerates(stream, edges)
      ensures forall e :: e in out ==> LastGranted(history, e)
      ensures (forall e :: LastGranted(history, e) ==> e in out) <==> |stream| <= limit
      ensures forall i, j :: 0 <= i < j < |out| ==> out[i] != out[j]
    {
      out := [];
      var received := 0;
      while received < |stream| && received < limit
        invariant 0 <= received <= |stream| && received <= limit
        invariant out == stream[..received]
      {
        out := out + [stream[received]];
        received := received + 1;
      }
      forall e ensures e in edges <==> LastGranted(history, e) { GraphRefinesHistory(history, e); }
      if limit < |stream| {
        assert stream[limit] in edges && stream[limit] !in out;
      } else {
        assert out == stream;
      }
    }
  }
}
