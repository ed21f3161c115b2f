/** Stake release at an epoch boundary: due stakes may be released in any order, and together they
    have a closed form. */
module Release {
  import opened Types
  import opened Sums
  import opened LedgerSpec

  /** What each of `done` owes back to `id`. */
  ghost function StakeMap(tasks: map<TaskId, Submission>, done: set<TaskId>, id: Identity): map<TaskId, int> {
    map t | t in tasks :: if t in done && tasks[t].provider == Some(id) then tasks[t].claimStake else 0
  }

  ghost function Owed(tasks: map<TaskId, Submission>, done: set<TaskId>, id: Identity): int {
    Sum(StakeMap(tasks, done, id))
  }

  lemma ReleaseSwap(accounts: map<Identity, Account>, tasks: map<TaskId, Submission>, t: TaskId, u: TaskId)
    ensures Release(Release(accounts, tasks, t), tasks, u) == Release(Release(accounts, tasks, u), tasks, t)
  {
  }

  /** Any task of `done` may be the last one released. */
  lemma {:induction false} ReleaseLast(accounts: map<Identity, Account>, tasks: map<TaskId, Submission>,
                                       done: set<TaskId>, t: TaskId)
    requires t in done
    ensures ReleaseAll(accounts, tasks, done) == Release(ReleaseAll(accounts, tasks, done - {t}), tasks, t)
    decreases |done|
  {
    var u := Pick(done);
    if u != t {
      ReleaseLast(accounts, tasks, done - {u}, t);
      ReleaseLast(accounts, tasks, done - {t}, u);
      assert done - {t} - {u} == done - {u} - {t};
      ReleaseSwap(ReleaseAll(accounts, tasks, done - {t} - {u}), tasks, t, u);
    }
  }

  lemma OwedStep(tasks: map<TaskId, Submission>, done: set<TaskId>, t: TaskId, id: Identity)
    requires t in done
    ensures Owed(tasks, done, id) == Owed(tasks, done - {t}, id)
              + if t in tasks && tasks[t].provider == Some(id) then tasks[t].claimStake else 0
    ensures Owed(tasks, done - {t}, id) >= 0
  {
    var before, after := StakeMap(tasks, done - {t}, id), StakeMap(tasks, done, id);
    assert forall u :: u in before ==> before[u] >= 0;
    SumBounds(before);
    if t in tasks {
      SumUpdate(before, t, after[t]);
      assert after == before[t := after[t]];
    } else {
      assert after == before;
    }
  }

  /** The closed form: whatever the order, a provider's bond drops by the smaller of itself and the
      total of its stakes, and its balance rises by the same; nobody else is touched. */
  lemma {:induction false} ReleaseClosedForm(accounts: map<Identity, Account>, tasks: map<TaskId, Submission>,
                                             done: set<TaskId>, id: Identity)
    requires AccountOf(accounts, id).bonded >= 0
    ensures var a := AccountOf(accounts, id);
            var amount := Min(Owed(tasks, done, id), a.bonded);
            && amount >= 0
            && AccountOf(ReleaseAll(accounts, tasks, done), id)
               == Account(a.id, a.balance + amount, a.escrowed, a.bonded - amount)
    decreases |done|
  {
    if done == {} {
      var m := StakeMap(tasks, done, id);
      assert forall t :: t in m ==> m[t] == 0;
      SumZero(m);
    } else {
      var t := Pick(done);
      ReleaseClosedForm(accounts, tasks, done - {t}, id);
      OwedStep(tasks, done, t, id);
    }
  }
}
