/**
 Experiments, runs and reviews with the schema's constraints (database/schema.sqlite.sql:4-55) and
 the statements of the three adapters (server/src/database.ts:333-391,
 coordinator-dotnet/Data/SqliteRepository.cs:55-112, coordinator-dotnet/Data/EfRepository.cs:61-151).
 Identifiers are AUTOINCREMENT keys, so none is ever used twice.
 */
module ReviewStore {
  import opened Wrappers

  datatype Status = PENDING | APPROVED | REJECTED

  datatype Run = Run(experimentId: nat, evidence: string)

  /** NULL columns are None. */
  datatype Review = Review(
    id: nat,
    runId: nat,
    researcherId: string,
    status: Status,
    feedback: Option<string>,
    reviewerId: Option<string>,
    decidedAt: Option<string>)

  datatype Store = Store(
    experiments: map<nat, string>,
    runs: map<nat, Run>,
    reviews: map<nat, Review>,
    nextExperiment: nat,
    nextRun: nat,
    nextReview: nat)

  datatype Failure = UniqueViolated | ForeignKeyViolated | CheckViolated

  datatype Result<+T> = Ok(value: T) | Err(failure: Failure)

  /** length(trim(feedback)) > 0 */
  predicate NonBlank(s: string) {
    exists i :: 0 <= i < |s| && s[i] != ' '
  }

  /** The table's CHECK constraint: decided columns are all NULL or all set. */
  predicate CheckHolds(v: Review) {
    (v.status == PENDING && v.feedback.None? && v.reviewerId.None? && v.decidedAt.None?)
    || (v.status != PENDING && v.feedback.Some? && NonBlank(v.feedback.value) && v.reviewerId.Some?
        && v.decidedAt.Some?)
  }

  predicate Reviewed(s: Store, runId: nat) {
    exists v :: v in s.reviews && s.reviews[v].runId == runId
  }

  /** Some run of the experiment has been submitted, so ON DELETE RESTRICT stops the cascade. */
  predicate Restricted(s: Store, experimentId: nat) {
    exists v :: v in s.reviews && s.reviews[v].runId in s.runs
        && s.runs[s.reviews[v].runId].experimentId == experimentId
  }

  // ----- statements

  function CreateExperiment(s: Store, name: string): Store {
    s.(experiments := s.experiments[s.nextExperiment := name], nextExperiment := s.nextExperiment + 1)
  }

  function CreateRun(s: Store, experimentId: nat, evidence: string): (Store, Result<nat>) {
    if experimentId !in s.experiments then (s, Err(ForeignKeyViolated))
    else (s.(runs := s.runs[s.nextRun := Run(experimentId, evidence)], nextRun := s.nextRun + 1), Ok(s.nextRun))
  }

  function CreateReview(s: Store, runId: nat, researcherId: string): (Store, Result<Review>) {
    if Reviewed(s, runId) then (s, Err(UniqueViolated))
    else if runId !in s.runs then (s, Err(ForeignKeyViolated))
    else
      var v := Review(s.nextReview, runId, researcherId, PENDING, None, None, None);
      (s.(reviews := s.reviews[v.id := v], nextReview := s.nextReview + 1), Ok(v))
  }

  /** UPDATE ... WHERE id = ? AND status = 'pending'; None when no row matched. */
  function DecideReview(s: Store, id: nat, status: Status, feedback: string, reviewerId: string, now: string): (Store,
      Result<Option<Review>>) {
    if id !in s.reviews || s.reviews[id].status != PENDING then (s, Ok(None))
    else
      var v := s.reviews[id].(status := status, feedback := Some(feedback), reviewerId := Some(reviewerId),
        decidedAt := Some(now));
      if !CheckHolds(v) then (s, Err(CheckViolated))
      else (s.(reviews := s.reviews[id := v]), Ok(Some(v)))
  }

  /** The experiment goes with its runs, or nothing does. */
  function DeleteExperiment(s: Store, id: nat): (Store, Result<bool>) {
    if id !in s.experiments then (s, Ok(false))
    else if Restricted(s, id) then (s, Err(ForeignKeyViolated))
    else (s.(experiments := map e | e in s.experiments && e != id :: s.experiments[e],
             runs := map r | r in s.runs && s.runs[r].experimentId != id :: s.runs[r]), Ok(true))
  }

  /** A review is read by joining its run and that run's experiment. */
  predicate Joined(s: Store, v: Review) {
    v.runId in s.runs && s.runs[v.runId].experimentId in s.experiments
  }

  function GetReview(s: Store, id: nat): Option<Review> {
    if id in s.reviews && Joined(s, s.reviews[id]) then Some(s.reviews[id]) else None
  }

  // ----- runs of statements

  /** `decided` lists the reviews for which a decide call returned a result. */
  datatype History = History(store: Store, decided: seq<nat>)

  datatype Action =
    | NewExperiment(name: string)
    | NewRun(experimentId: nat, evidence: string)
    | Submit(runId: nat, researcherId: string)
    | Decide(id: nat, status: Status, feedback: string, reviewerId: string, now: string)
    | Delete(experimentId: nat)

  function Next(h: History, a: Action): History {
    match a
    case NewExperiment(name) => h.(store := CreateExperiment(h.store, name))
    case NewRun(id, evidence) => h.(store := CreateRun(h.store, id, evidence).0)
    case Submit(runId, researcherId) => h.(store := CreateReview(h.store, runId, researcherId).0)
    case Decide(id, status, feedback, reviewerId, now) =>
      var (s, r) := DecideReview(h.store, id, status, feedback, reviewerId, now);
      History(s, if r.Ok? && r.value.Some? then h.decided + [id] else h.decided)
    case Delete(id) => h.(store := DeleteExperiment(h.store, id).0)
  }

  function RunAll(h: History, actions: seq<Action>): History
    decreases |actions|
  {
    if actions == [] then h else Next(RunAll(h, actions[..|actions| - 1]), actions[|actions| - 1])
  }

  const EMPTY := History(Store(map[], map[], map[], 0, 0, 0), [])

  ghost predicate StoreOk(s: Store) {
    && (forall e :: e in s.experiments ==> e < s.nextExperiment)
    && (forall r :: r in s.runs ==> r < s.nextRun && s.runs[r].experimentId in s.experiments)
    && (forall v :: v in s.reviews ==>
        v < s.nextReview && s.reviews[v].id == v && s.reviews[v].runId in s.runs && CheckHolds(s.reviews[v]))
    && (forall v, w :: v in s.reviews && w in s.reviews && s.reviews[v].runId == s.reviews[w].runId ==> v == w)
  }

  ghost predicate HistoryOk(h: History) {
    && StoreOk(h.store)
    && (forall i :: 0 <= i < |h.decided| ==>
        h.decided[i] in h.store.reviews && h.store.reviews[h.decided[i]].status != PENDING)
    && (forall i, j :: 0 <= i < j < |h.decided| ==> h.decided[i] != h.decided[j])
  }

  /** The same submission, and the same decision once there is one. */
  predicate Firmer(v: Review, w: Review) {
    v.id == w.id && v.runId == w.runId && v.researcherId == w.researcherId && (v.status != PENDING ==> w == v)
  }

  /** Every review is still there, as firm or firmer, on the same run of the same experiment. */
  ghost predicate Preserves(s: Store, t: Store) {
    forall v :: v in s.reviews ==>
      && v in t.reviews && Firmer(s.reviews[v], t.reviews[v])
      && s.reviews[v].runId in s.runs && s.reviews[v].runId in t.runs
      && var run := s.runs[s.reviews[v].runId];
         t.runs[s.reviews[v].runId] == run
         && run.experimentId in s.experiments && run.experimentId in t.experiments
         && t.experiments[run.experimentId] == s.experiments[run.experimentId]
  }

  lemma DeleteKeepsOk(s: Store, id: nat)
    requires StoreOk(s)
    ensures var t := DeleteExperiment(s, id).0; StoreOk(t) && Preserves(s, t)
  {
    var t := DeleteExperiment(s, id).0;
    if t != s {
      forall v | v in s.reviews ensures s.reviews[v].runId in t.runs {
        assert s.reviews[v].runId in s.runs;
      }
    }
  }

  /**
   An experiment is deleted, with its runs and nothing else, if and only if it exists and none of its runs
   has been submitted for review.
   */
  lemma DeletionIsExact(s: Store, id: nat)
    requires StoreOk(s)
    ensures var (t, r) := DeleteExperiment(s, id);
            && (r == Ok(true) <==>
                  id in s.experiments
                  && forall v :: v in s.reviews ==> s.runs[s.reviews[v].runId].experimentId != id)
            && (r == Ok(false) <==> id !in s.experiments) && (r != Ok(true) ==> t == s)
            && (r == Ok(true) ==>
                  && t.reviews == s.reviews
                  && (forall e :: e in t.experiments <==> e in s.experiments && e != id)
                  && (forall e :: e in t.experiments ==> t.experiments[e] == s.experiments[e])
                  && (forall n :: n in t.runs <==> n in s.runs && s.runs[n].experimentId != id)
                  && (forall n :: n in t.runs ==> t.runs[n] == s.runs[n]))
  {
  }

  lemma DecideKeepsOk(s: Store, id: nat, status: Status, feedback: string, reviewerId: string, now: string)
    requires StoreOk(s)
    ensures var (t, r) := DecideReview(s, id, status, feedback, reviewerId, now);
            && StoreOk(t) && Preserves(s, t)
            && (r.Ok? && r.value.Some? ==>
                id in s.reviews && s.reviews[id].status == PENDING && t.reviews[id] == r.value.value
                && t.reviews[id].status != PENDING)
  {
  }

  lemma SubmitKeepsOk(s: Store, runId: nat, researcherId: string)
    requires StoreOk(s)
    ensures var (t, r) := CreateReview(s, runId, researcherId);
            StoreOk(t) && Preserves(s, t) && forall v :: v in s.reviews ==>
                v in t.reviews && t.reviews[v] == s.reviews[v]
  {
  }

  lemma AddKeepsOk(s: Store, a: Action)
    requires StoreOk(s) && (a.NewExperiment? || a.NewRun?)
    ensures var t := Next(History(s, []), a).store; StoreOk(t) && Preserves(s, t) && t.reviews == s.reviews
  {
  }

  lemma NextStoreOk(h: History, a: Action)
    requires StoreOk(h.store)
    ensures StoreOk(Next(h, a).store) && Preserves(h.store, Next(h, a).store)
  {
    match a
    case Decide(id, status, feedback, reviewerId, now) => DecideKeepsOk(h.store, id, status, feedback, reviewerId, now);
    case Delete(id) => DeleteKeepsOk(h.store, id);
    case Submit(runId, researcherId) => SubmitKeepsOk(h.store, runId, researcherId);
    case _ => AddKeepsOk(h.store, a);
  }

  lemma NextKeepsOk(h: History, a: Action)
    requires HistoryOk(h)
    ensures HistoryOk(Next(h, a)) && Preserves(h.store, Next(h, a).store)
  {
    NextStoreOk(h, a);
    hide StoreOk, CreateExperiment, CreateRun, CreateReview, DecideReview, DeleteExperiment;
    if a.Decide? { DecideKeepsOk(h.store, a.id, a.status, a.feedback, a.reviewerId, a.now); }
  }

  lemma PreservesTransitive(s: Store, t: Store, u: Store)
    requires Preserves(s, t) && Preserves(t, u)
    ensures Preserves(s, u)
  {
  }

  lemma {:induction false} RunKeepsOk(actions: seq<Action>)
    ensures HistoryOk(RunAll(EMPTY, actions))
    decreases |actions|
  {
    if actions != [] {
      RunKeepsOk(actions[..|actions| - 1]);
      NextKeepsOk(RunAll(EMPTY, actions[..|actions| - 1]), actions[|actions| - 1]);
    }
  }

  /**
   Over any interleaving of statements: once a review exists its run and experiment never change or
   disappear, and once it is decided every later read returns that decision.
   */
  lemma {:induction false} EvidenceAndDecisionsAreFinal(before: seq<Action>, after: seq<Action>)
    ensures Preserves(RunAll(EMPTY, before).store, RunAll(EMPTY, before + after).store)
    decreases |after|
  {
    RunKeepsOk(before);
    if after == [] {
      assert before + after == before;
    } else {
      var most := before + after[..|after| - 1];
      assert (before + after)[..|before + after| - 1] == most;
      EvidenceAndDecisionsAreFinal(before, after[..|after| - 1]);
      RunKeepsOk(most);
      NextKeepsOk(RunAll(EMPTY, most), after[|after| - 1]);
      PreservesTransitive(RunAll(EMPTY, before).store, RunAll(EMPTY, most).store, RunAll(EMPTY, before + after).store);
    }
  }

  /** Each run has at most one review, and at most one decide call per review returns a result. */
  lemma OneReviewOneDecision(actions: seq<Action>)
    ensures var h := RunAll(EMPTY, actions);
            && (forall v, w ::
                  v in h.store.reviews && w in h.store.reviews ==>
                    h.store.reviews[v].runId == h.store.reviews[w].runId ==> v == w)
            && (forall i, j :: 0 <= i < j < |h.decided| ==> h.decided[i] != h.decided[j])
            && (forall v :: v in h.store.reviews ==> CheckHolds(h.store.reviews[v]))
  {
    RunKeepsOk(actions);
  }

  /** The joins of the review query hide no review. */
  lemma EveryReviewIsReadable(actions: seq<Action>, id: nat)
    requires id in RunAll(EMPTY, actions).store.reviews
    ensures GetReview(RunAll(EMPTY, actions).store, id) == Some(RunAll(EMPTY, actions).store.reviews[id])
  {
    RunKeepsOk(actions);
  }
}
