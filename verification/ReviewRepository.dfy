/**
 The repository object (coordinator-dotnet/Data/SqliteRepository.cs:55-112): each write is one
 transaction under a lock, proved to be the statement of module ReviewStore.
 */
module ReviewRepository {
  import opened Wrappers
  import opened ReviewStore

  class Repository {
    var experiments: map<nat, string>
    var runs: map<nat, Run>
    var reviews: map<nat, Review>
    var nextExperiment: nat
    var nextRun: nat
    var nextReview: nat

    ghost function View(): Store
      reads this
    {
      Store(experiments, runs, reviews, nextExperiment, nextRun, nextReview)
    }

    ghost predicate Valid()
      reads this
    {
      StoreOk(View())
    }

    constructor ()
      ensures View() == EMPTY.store && Valid()
    {
      experiments, runs, reviews := map[], map[], map[];
      nextExperiment, nextRun, nextReview := 0, 0, 0;
    }

    method CreateReview(runId: nat, researcherId: string) returns (r: Result<Review>)
      requires Valid()
      modifies this
      ensures Valid() && Preserves(old(View()), View())
      ensures (View(), r) == ReviewStore.CreateReview(old(View()), runId, researcherId)
      ensures r.Ok? ==> !Reviewed(old(View()), runId) && GetReview(View(), r.value.id) == Some(r.value)
    {
      if exists v :: v in reviews && reviews[v].runId == runId { return Err(UniqueViolated); }
      if runId !in runs { return Err(ForeignKeyViolated); }
      var v := Review(nextReview, runId, researcherId, PENDING, None, None, None);
      reviews := reviews[v.id := v];
      nextReview := nextReview + 1;
      r := Ok(v);
    }

    /** The transaction: conditional update, read-back through the join, commit. */
    method DecideReview(id: nat, status: Status, feedback: string, reviewerId: string,
        now: string) returns (r: Result<Option<Review>>)
      requires Valid()
      modifies this
      ensures Valid() && Preserves(old(View()), View())
      ensures (View(), r) == ReviewStore.DecideReview(old(View()), id, status, feedback, reviewerId, now)
      ensures r.Ok? && r.value.Some? ==>
          id in old(reviews) && old(reviews)[id].status == PENDING && r.value.value.status == status != PENDING
    {
      DecideKeepsOk(View(), id, status, feedback, reviewerId, now);
      if id !in reviews || reviews[id].status != PENDING { return Ok(None); }
      var v := reviews[id].(status := status, feedback := Some(feedback), reviewerId := Some(reviewerId),
        decidedAt := Some(now));
      if !CheckHolds(v) { return Err(CheckViolated); }
      reviews := reviews[id := v];
      r := Ok(Some(reviews[id]));
    }

    method DeleteExperiment(id: nat) returns (r: Result<bool>)
      requires Valid()
      modifies this
      ensures Valid() && Preserves(old(View()), View()) && reviews == old(reviews)
      ensures (View(), r) == ReviewStore.DeleteExperiment(old(View()), id)
    {
      DeleteKeepsOk(View(), id);
      if id !in experiments { return Ok(false); }
      if exists v :: v in reviews && reviews[v].runId in runs && runs[reviews[v].runId].experimentId == id {
        return Err(ForeignKeyViolated);
      }
      runs := map r | r in runs && runs[r].experimentId != id :: runs[r];
      experiments := map e | e in experiments && e != id :: experiments[e];
      r := Ok(true);
    }
  }
}
