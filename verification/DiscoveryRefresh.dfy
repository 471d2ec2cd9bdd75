/** The refresh of WorkerDiscovery (system/zookeeper_registry.py) as an object that feeds the pool. */
module WorkerDiscoveries {
  import opened Wrappers
  import opened Tasks
  import opened WorkerPools

  datatype Node = Registered(info: WorkerInfo) | Malformed

  /** One question to the registry, with its answer. */
  datatype Lookup = Listed(children: Reply<set<string>>) | Read(id: string, node: Reply<Option<Node>>)

  /** A read that stops the refresh: it failed, or found something that can not be parsed. */
  predicate Bad(lookup: Lookup) {
    lookup.Read? && (lookup.node.Raised? || lookup.node.value == Some(Malformed))
  }

  /** The workers are exactly what the reads found, one read for each child; a node that has vanished since it
      was listed is left out. */
  predicate Gathered(lookups: seq<Lookup>, children: set<string>, workers: map<string, WorkerInfo>) {
    && (forall i | 0 <= i < |lookups| :: lookups[i].Read? && !Bad(lookups[i]) && lookups[i].id in children)
    && (forall i, k | 0 <= i < k < |lookups| :: lookups[i].id != lookups[k].id)
    && (forall id | id in children :: exists i | 0 <= i < |lookups| :: lookups[i].id == id)
    && workers.Keys <= children
    && forall i | 0 <= i < |lookups| ::
         match lookups[i].node.value
         case None => lookups[i].id !in workers
         case Some(node) => lookups[i].id in workers && node == Registered(workers[lookups[i].id])
  }

  lemma GatheredOn(lookups: seq<Lookup>, children: set<string>, workers: map<string, WorkerInfo>, id: string,
                   node: Option<Node>)
    requires Gathered(lookups, children, workers) && id !in children && node != Some(Malformed)
    ensures Gathered(lookups + [Read(id, Returned(node))], children + {id},
                     if node.Some? then workers[id := node.value.info] else workers)
  {
    var all := lookups + [Read(id, Returned(node))];
    forall c | c in children + {id} ensures exists i | 0 <= i < |all| :: all[i].id == c {
      if c in children {
        var i :| 0 <= i < |lookups| && lookups[i].id == c;
        assert all[i].id == c;
      } else {
        assert all[|lookups|].id == c;
      }
    }
  }

  /** The registry; another process may change it between any two reads, unless it is still. */
  class Registry {
    var tree: map<string, Node>
    const still: bool
    ghost var lookups: seq<Lookup>   // every question that was asked, in order

    constructor (tree: map<string, Node>, still: bool)
      ensures this.tree == tree && this.still == still && lookups == []
    {
      this.tree, this.still, lookups := tree, still, [];
    }

    method Pause()
      modifies this`tree
      ensures still ==> tree == old(tree)
    {
      var later: map<string, Node> := *;
      if !still {
        tree := later;
      }
    }

    method GetChildren() returns (children: Reply<set<string>>)
      modifies this
      ensures still ==> tree == old(tree) && children == Returned(tree.Keys)
      ensures lookups == old(lookups) + [Listed(children)]
    {
      Pause();
      var up: bool := *;
      children := if still || up then Returned(tree.Keys) else Raised;
      lookups := lookups + [Listed(children)];
    }

    /** None for a missing node, Raised for a failed read. */
    method Get(id: string) returns (node: Reply<Option<Node>>)
      modifies this
      ensures still ==> tree == old(tree) && node == Returned(if id in tree then Some(tree[id]) else None)
      ensures lookups == old(lookups) + [Read(id, node)]
    {
      Pause();
      var up: bool := *;
      node := if still || up then Returned(if id in tree then Some(tree[id]) else None) else Raised;
      lookups := lookups + [Read(id, node)];
    }
  }

  predicate Parsed(tree: map<string, Node>, workers: map<string, WorkerInfo>) {
    workers.Keys == tree.Keys && forall id | id in tree :: tree[id] == Registered(workers[id])
  }

  class WorkerDiscovery {
    const registry: Registry
    const pool: GrpcWorkerPool
    var watched: set<string>
    var workers: map<string, WorkerInfo>
    var published: Option<map<string, WorkerInfo>>

    /** An open pool has exactly the published ids, in the published routing states. */
    ghost predicate PoolFollows()
      reads this, pool`workers, pool`stopping, pool.workers
    {
      published.Some? && !pool.stopping ==>
        && Ids(pool.workers) == published.value.Keys
        && forall w | w in pool.workers ::
             w.workerId in published.value && w.Ready() == published.value[w.workerId].ready
    }

    ghost predicate Valid()
      reads this, pool`workers, pool`stopping, pool.workers
    {
      pool.Valid() && PoolFollows() && (published.Some? ==> workers.Keys <= watched)
    }

    constructor (registry: Registry, pool: GrpcWorkerPool)
      requires pool.Valid()
      ensures Valid() && published == None && this.registry == registry && this.pool == pool
    {
      this.registry, this.pool := registry, pool;
      watched, workers, published := {}, map[], None;
    }

    /** What a refresh asked and got: the children, then each of them, until an answer was bad. It goes well if and
        only if none was, and then the workers are what was read. */
    predicate Asked(before: seq<Lookup>, after: seq<Lookup>, read: Reply<map<string, WorkerInfo>>) {
      && |before| < |after| && before == after[..|before|] && after[|before|].Listed?
      && var children, answers := after[|before|].children, after[|before| + 1..];
      && (read.Returned? <==> children.Returned? && forall i | 0 <= i < |answers| :: !Bad(answers[i]))
      && (read.Returned? ==> Gathered(answers, children.value, read.value))
    }

    /** Subscribe to new paths, read every node, and tell the pool if anything differs. A failed read keeps
        the last snapshot; a read of a registry that stands still gives exactly its contents. */
    method Refresh(now: Time) returns (ok: bool)
      requires Valid()
      modifies this, registry, pool`workers, pool.workers, pool.Waiting()
      ensures Valid() && old(watched) <= watched && pool.stopping == old(pool.stopping)
      ensures ok ==> published == Some(workers)
      ensures !ok ==> published == old(published) && workers == old(workers) && pool.workers == old(pool.workers)
      ensures registry.still ==> (ok <==> forall id | id in registry.tree :: registry.tree[id].Registered?)
      ensures registry.still && ok ==> Parsed(registry.tree, workers)
      ensures Asked(old(registry.lookups), registry.lookups, if ok then Returned(workers) else Raised)
    {
      hide GrpcWorkerPool.Valid, GrpcWorkerPool.Queues, GrpcWorkerPool.Loads, GrpcWorkerPool.Snap, Parsed;
      hide WorkerDiscovery.Asked, GrpcWorkerPool.Waiting, GrpcWorkerPool.MovedOver, GrpcWorkerPool.NoneLost;
      var read := Survey();
      if read.Raised? {
        return false;
      }
      workers := read.value;
      if published != Some(workers) {
        ghost var turns, first := pool.UpdateWorkers(workers, now);
        published := Some(workers);
      }
      return true;
    }

    /** List the children, watch the new ones, and read every node. */
    method Survey() returns (read: Reply<map<string, WorkerInfo>>)
      modifies this`watched, registry
      ensures old(watched) <= watched && (read.Returned? ==> read.value.Keys <= watched)
      ensures registry.still ==> (read.Returned? <==> forall id | id in registry.tree :: registry.tree[id].Registered?)
      ensures registry.still && read.Returned? ==> Parsed(registry.tree, read.value)
      ensures Asked(old(registry.lookups), registry.lookups, read)
    {
      hide Bad, Gathered, Parsed;
      var children := registry.GetChildren();
      ghost var one := registry.lookups;
      assert one[..|one| - 1] == old(registry.lookups) && one[|one| - 1] == Listed(children) && one[|one|..] == [];
      if children.Raised? {
        return Raised;
      }
      watched := watched + children.value;
      read := ReadWorkers(children.value);
      assert registry.lookups[..|one|] == one;
      assert registry.lookups[..|one| - 1] == one[..|one| - 1];
    }

    method ReadWorkers(children: set<string>) returns (read: Reply<map<string, WorkerInfo>>)
      modifies registry
      ensures read.Returned? ==> read.value.Keys <= children
      ensures registry.still ==> registry.tree == old(registry.tree)
      ensures registry.still && children == registry.tree.Keys ==>
                (read.Returned? <==> forall id | id in registry.tree :: registry.tree[id].Registered?)
                && (read.Returned? ==> Parsed(registry.tree, read.value))
      ensures old(registry.lookups) <= registry.lookups
      ensures var answers := registry.lookups[|old(registry.lookups)|..];
              && (read.Returned? <==> forall i | 0 <= i < |answers| :: !Bad(answers[i]))
              && (read.Returned? ==> Gathered(answers, children, read.value))
    {
      var got: map<string, WorkerInfo> := map[];
      var todo := children;
      ghost var answers: seq<Lookup> := [];
      while todo != {}
        invariant todo <= children && got.Keys <= children - todo
        invariant registry.still ==> registry.tree == old(registry.tree)
        invariant registry.still && children == registry.tree.Keys ==>
                    forall id | id in children - todo :: id in got && registry.tree[id] == Registered(got[id])
        invariant registry.lookups == old(registry.lookups) + answers && Gathered(answers, children - todo, got)
      {
        var id :| id in todo;
        ghost var seen, was, had := children - todo, got, answers;
        todo := todo - {id};
        var node := registry.Get(id);
        answers := answers + [Read(id, node)];
        if node.Raised? || (node.value.Some? && node.value.value.Malformed?) {
          assert Bad(answers[|answers| - 1]) && registry.lookups[|old(registry.lookups)|..] == answers;
          return Raised;
        }
        if node.value.Some? {
          got := got[id := node.value.value.info];
        }
        GatheredOn(had, seen, was, id, node.value);
        assert seen + {id} == children - todo;
      }
      assert children - todo == children;
      assert registry.lookups[|old(registry.lookups)|..] == answers;
      return Returned(got);
    }
  }
}
