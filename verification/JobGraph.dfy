/** The job graph of `workflow_contract` in optimization_evidence.py. */
module JobGraph {
  import opened Sorting

  type Graph = map<string, seq<string>>

  /** `set(needs) <= jobs.keys()` for every job. */
  predicate Known(graph: Graph) {
    forall name, parent :: name in graph && parent in graph[name] ==> parent in graph
  }

  ghost predicate Chain(graph: Graph, path: seq<string>) {
    && (forall name :: name in path ==> name in graph)
    && forall i :: 0 <= i < |path| - 1 ==> path[i + 1] in graph[path[i]]
  }

  /** A job that needs itself, directly or through others. */
  ghost predicate Cycle(graph: Graph, path: seq<string>) {
    |path| > 1 && Chain(graph, path) && path[0] == path[|path| - 1]
  }

  ghost predicate Cyclic(graph: Graph) {
    exists path :: Cycle(graph, path)
  }

  /** `visit` returns instead of raising; each call adds a job to the ancestors, so it ends. */
  predicate Visit(graph: Graph, name: string, ancestors: set<string>)
    requires Known(graph) && name in graph && ancestors <= graph.Keys
    decreases |graph.Keys - ancestors|
  {
    if name in ancestors then false
    else
      assert graph.Keys - (ancestors + {name}) < graph.Keys - ancestors by {
        assert name in graph.Keys - ancestors;
      }
      SmallerSet(graph.Keys - (ancestors + {name}), graph.Keys - ancestors);
      forall parent :: parent in graph[name] ==> Visit(graph, parent, ancestors + {name})
  }

  lemma SmallerSet(a: set<string>, b: set<string>)
    requires a < b
    ensures |a| < |b|
  {
    var rest := b - a;
    assert |b| == |a| + |rest| by { assert b == a + rest; }
    assert rest != {};
  }

  /** A path that ends among the ancestors or on itself is found. */
  lemma {:induction false} WalkFails(graph: Graph, path: seq<string>, ancestors: set<string>)
    requires Known(graph) && path != [] && Chain(graph, path) && ancestors <= graph.Keys
    requires path[|path| - 1] in ancestors + Elements(path[..|path| - 1])
    ensures !Visit(graph, path[0], ancestors)
    decreases |path|
  {
    if |path| > 1 && path[0] !in ancestors {
      var tail := path[1..];
      forall i | 0 <= i < |tail| - 1 ensures tail[i + 1] in graph[tail[i]] {
        assert path[i + 2] in graph[path[i + 1]];
      }
      assert path[..|path| - 1] == [path[0]] + tail[..|tail| - 1];
      assert tail[|tail| - 1] in (ancestors + {path[0]}) + Elements(tail[..|tail| - 1]);
      WalkFails(graph, tail, ancestors + {path[0]});
      assert path[0 + 1] in graph[path[0]];
    }
  }

  /** And a refusal comes from a cycle: the ancestors are the jobs on the way. */
  lemma {:induction false} FailureHasCycle(graph: Graph, way: seq<string>, name: string)
    requires Known(graph) && Chain(graph, way + [name]) && !Visit(graph, name, Elements(way))
    requires Elements(way) <= graph.Keys
    ensures Cyclic(graph)
    decreases |graph.Keys - Elements(way)|
  {
    var path := way + [name];
    if name in Elements(way) {
      var k :| 0 <= k < |way| && way[k] == name;
      var cycle := path[k..];
      forall i | 0 <= i < |cycle| - 1 ensures cycle[i + 1] in graph[cycle[i]] {
        assert path[k + i + 1] in graph[path[k + i]];
      }
      assert Cycle(graph, cycle);
    } else {
      assert name in path;
      assert Elements(path) == Elements(way) + {name};
      var parent :| parent in graph[name] && !Visit(graph, parent, Elements(way) + {name});
      assert graph.Keys - Elements(path) < graph.Keys - Elements(way) by {
        assert name in graph.Keys - Elements(way);
      }
      SmallerSet(graph.Keys - Elements(path), graph.Keys - Elements(way));
      ChainGrows(graph, path, parent);
      FailureHasCycle(graph, path, parent);
    }
  }

  lemma ChainGrows(graph: Graph, path: seq<string>, parent: string)
    requires Known(graph) && path != [] && Chain(graph, path) && parent in graph[path[|path| - 1]]
    ensures Chain(graph, path + [parent])
  {
  }

  /** The graph is accepted exactly when every need is a job and no job needs itself. */
  method Validate(graph: Graph) returns (ok: bool)
    ensures ok <==> Known(graph) && !Cyclic(graph)
  {
    if !Known(graph) {
      return false;
    }
    var todo := graph.Keys;
    while todo != {}
      invariant todo <= graph.Keys
      invariant forall name :: name in graph.Keys - todo ==> Visit(graph, name, {})
      decreases |todo|
    {
      var name :| name in todo;
      if !Visit(graph, name, {}) {
        assert Elements<string>([]) == {} && [] + [name] == [name];
        FailureHasCycle(graph, [], name);
        return false;
      }
      todo := todo - {name};
    }
    ok := true;
    forall path | Cycle(graph, path) ensures false {
      assert path[0] in path && path[0] in path[..|path| - 1];
      WalkFails(graph, path, {});
    }
  }
}
