/**
 From consensus to chat: what the servers of a run have stored.
 */
module Replicas {
  import opened Chat
  import opened Consensus
  import opened Protocol
  import opened Safety
  import opened Theorems
  import Membership
  import P = ChatProofs

  function Commands(stream: seq<CommitEntry>): seq<Command> {
    seq(|stream|, i requires 0 <= i < |stream| => stream[i].command)
  }

  // The commands that a server has applied.
  function Applied(a: App): seq<Command>
    requires a.consumed <= |a.emitted|
  {
    Commands(a.emitted[..a.consumed])
  }

  ghost predicate StoredWith(a: App, ids: seq<UInt32>) {
    a.consumed <= |a.emitted| && |ids| == a.consumed && a.store == P.Fold(Applied(a), ids)
  }

  // A server has stored the effect of the entries it consumed, with some random group ids.
  ghost predicate Stored(a: App) { exists ids :: StoredWith(a, ids) }

  lemma ConsumeStores(a: App, randomId: UInt32)
    requires Stored(a) && a.consumed < |a.emitted|
    ensures Stored(Consume(a, randomId))
  {
    var ids :| StoredWith(a, ids);
    var a', ids' := Consume(a, randomId), ids + [randomId];
    assert Applied(a')[..a.consumed] == Applied(a) && ids'[..a.consumed] == ids;
    assert StoredWith(a', ids');
  }

  lemma EmitStores(a: App, a': App, more: seq<CommitEntry>)
    requires Stored(a) && a' == a.(emitted := a.emitted + more)
    ensures Stored(a')
  {
    var ids :| StoredWith(a, ids);
    assert a'.emitted[..a.consumed] == a.emitted[..a.consumed];
    assert StoredWith(a', ids);
  }

  // Only the steps of the apply stream touch what a server has stored.
  lemma StepStores(g: Global, step: Step, s: int)
    requires Enabled(g, step) && s in g.apps && s in Next(g, step).apps && Stored(g.apps[s])
    ensures Stored(Next(g, step).apps[s])
  {
    if step.EmitCommits? && step.s == s {
      EmitStores(g.apps[s], Next(g, step).apps[s], NewlyCommitted(g.nodes[s]));
    } else if step.ApplyNext? && step.s == s {
      ConsumeStores(g.apps[s], step.randomId);
    } else {
      assert Next(g, step).apps[s] == g.apps[s];
    }
  }

  lemma {:induction false} RunStores(run: Run, i: nat, s: int)
    requires run.ValidAndGuarded() && Within(run, i, s)
    ensures Stored(run.states[i].apps[s])
  {
    if i == 0 {
      assert StoredWith(run.states[0].apps[s], []);
    } else {
      RunStepPrecedes(run, i - 1);
      RunStores(run, i - 1, s);
      assert run.StepAt(i - 1);
      StepStores(run.states[i - 1], run.steps[i - 1], s);
    }
  }

  // In every run the groups of a server, their messages and likes, and their participants are what
  // the commands that it has applied say.
  lemma StoreIsWhatWasSaid(run: Run, i: nat, s: int, name: string, u: UInt32)
    requires run.ValidAndGuarded() && Within(run, i, s)
    ensures var a := run.states[i].apps[s];
            && a.consumed <= |a.emitted|
            && P.GroupIs(P.Since(Applied(a), name), name, a.store)
            && Membership.MemberIs(P.Since(Applied(a), name), name, u, a.store)
  {
    RunStores(run, i, s);
    var a := run.states[i].apps[s];
    var ids :| StoredWith(a, ids);
    P.GroupAfter(Applied(a), ids, name);
    Membership.MemberAfter(Applied(a), ids, name, u);
  }

  // If one server has applied no more entries than another, at any two moments, its store is,
  // up to group ids, what the other server's stream says after that many commands.
  lemma ReplicasAgree(run: Run, i: nat, j: nat, s: int, t: int)
    requires run.ValidAndGuarded() && Within(run, i, s) && Within(run, j, t)
    requires run.states[i].apps[s].consumed <= run.states[j].apps[t].consumed
    ensures var a, b := run.states[i].apps[s], run.states[j].apps[t];
            && a.consumed <= |b.emitted|
            && P.Erase(a.store) == P.Replay(Commands(b.emitted[..a.consumed]))
  {
    var a, b := run.states[i].apps[s], run.states[j].apps[t];
    RunStores(run, i, s);
    RunStores(run, j, t);
    forall k: nat | k < a.consumed ensures a.emitted[k].command == b.emitted[k].command {
      StateMachineSafety(run, i, j, s, t, k);
    }
    var ids :| StoredWith(a, ids);
    P.IdsDoNotMatter(Applied(a), ids);
    assert Commands(a.emitted[..a.consumed]) == Commands(b.emitted[..a.consumed]);
  }

  // In particular servers that have applied equally many entries store the same.
  lemma EqualProgressEqualStores(run: Run, i: nat, j: nat, s: int, t: int)
    requires run.ValidAndGuarded() && Within(run, i, s) && Within(run, j, t)
    requires run.states[i].apps[s].consumed == run.states[j].apps[t].consumed
    ensures P.Erase(run.states[i].apps[s].store) == P.Erase(run.states[j].apps[t].store)
  {
    ReplicasAgree(run, i, j, s, t);
    ReplicasAgree(run, j, j, t, t);
  }
}
