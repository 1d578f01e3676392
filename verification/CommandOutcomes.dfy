/**
 * What each command does to the table and publishes, told in terms of the command itself,
 * for every state and every fate of the calls it makes.
 */
module CommandOutcomes {
  import opened Wrappers
  import opened Text
  import opened Domain
  import opened UserTable
  import opened UserService
  import opened CacheAgreement
  import opened CallOutcomes
  import opened Interleaving
  import opened CommandHandlers

  /** The results after a publication that may not arrive. */
  function Told(w: World, r: Published, env: Env): seq<Published> {
    if env.publish.Applies() then w.results + [r] else w.results
  }

  function Left(env: Env): Outcome {
    if env.publish.NoFault? then Handled else Failed(false)
  }

  // --------------------------------------------------------------------- saga

  /** The saga reports a creation as what it was, and is done with it as soon as the report is acknowledged. */
  lemma SagaCreation(w: World, p: CreateUserParams, env: Env)
    ensures var (after, outcome) := HandleCreate(w, Some(p), env);
            var stored := p.(avatarId := "");
            var inserted := CanInsert(w.store.db, p) && env.db.Applies();
            var ok := CanInsert(w.store.db, p) && env.db.NoFault? && env.write.NoFault?;
            && after.store.db.rows
               == (if inserted then w.store.db.rows[p.id := FreshRow(stored, env.now)] else w.store.db.rows)
            && after.store.db.outbox == Logged(w.store.db, inserted, Created, FreshRow(stored, env.now))
            && after.results == Told(w, SagaResult(Create, p.id, ok), env)
            && outcome == Left(env)
  {
    CreationChangesTable(w.store, p.(avatarId := ""), env);
    CreationAnswers(w.store, p.(avatarId := ""), env);
  }

  /**
   * A saga deletion removes the row of the user, and no other, exactly if there is one and
   * the statement arrives; it reports success exactly if the row was there and nothing
   * failed, and then the preview is gone with it.
   */
  lemma SagaDeletion(w: World, id: string, env: Env)
    requires Keyed(w.store.db.rows)
    ensures var (after, outcome) := HandleDelete(w, Some(id), env);
            var removed := id in w.store.db.rows && env.db.Applies();
            var ok := id in w.store.db.rows && env.db.NoFault? && env.write.NoFault?;
            && after.store.db.rows == (if removed then w.store.db.rows - {id} else w.store.db.rows)
            && after.store.db.outbox == LoggedDeletion(w.store.db, removed, id)
            && after.results == Told(w, SagaResult(Delete, id, ok), env)
            && (ok ==> PreviewAt(after.store.cache, id).None?)
            && OnlyPreviewOf(w.store.cache, after.store.cache, id)
            && outcome == Left(env)
  {
    DeletionOutcome(w.store, id, env);
  }

  /** After a deletion reported as failed the user is present exactly if it was and the statement did not arrive. */
  lemma ReportedFailureOfDeletion(w: World, id: string, env: Env)
    requires Keyed(w.store.db.rows)
    requires HandleDelete(w, Some(id), env).0.results == w.results + [SagaResult(Delete, id, false)]
    ensures id in HandleDelete(w, Some(id), env).0.store.db.rows <==> id in w.store.db.rows && env.db.Lost?
    ensures id in w.store.db.rows ==> !env.db.NoFault? || !env.write.NoFault?
  {
    SagaDeletion(w, id, env);
    var ok := id in w.store.db.rows && env.db.NoFault? && env.write.NoFault?;
    assert |w.results + [SagaResult(Delete, id, false)]| == |w.results| + 1;
    assert (w.results + [SagaResult(Delete, id, false)])[|w.results|] == SagaResult(Delete, id, false);
    assert (w.results + [SagaResult(Delete, id, ok)])[|w.results|] == SagaResult(Delete, id, ok);
  }

  /** Commands that do not decode change nothing and are left for another attempt. */
  lemma UndecodedCommands(w: World, env: Env)
    ensures HandleCreate(w, None, env) == HandleDelete(w, None, env) == (w, Failed(false))
    ensures HandleRecovery(w, None, env) == (w, Failed(false))
  {
  }

  // ----------------------------------------------------------------- recovery

  predicate AboutUsers(e: Envelope) {
    e.aggregateType == "user" || e.aggregateType == "users"
  }

  /** Whether `s` spells this word of small letters, in whatever case. */
  predicate Spells(s: string, word: string) {
    && |s| == |word|
    && forall i :: 0 <= i < |s| ==> s[i] == word[i] || ('a' <= word[i] <= 'z' && s[i] == word[i] - 'a' + 'A')
  }

  /** Operations are recognised in any case. */
  lemma CaseDoesNotMatter(s: string, word: string)
    requires Spells(s, word) && forall i :: 0 <= i < |word| ==> 'a' <= word[i] <= 'z'
    ensures ToLower(s) == word
  {
    assert forall i :: 0 <= i < |s| ==> ToLower(s)[i] == word[i];
  }

  /** Whether the operation succeeded on the row of `id`, given that it needs one. */
  predicate Succeeds(w: World, id: string, env: Env) {
    id in w.store.db.rows && env.db.NoFault? && env.write.NoFault?
  }

  /** Completion of the operation is published, and the command done, exactly if it succeeded. */
  predicate Completes(w: World, after: World, outcome: Outcome, kind: Kind, id: string, env: Env) {
    if Succeeds(w, id, env) then
      after.results == Told(w, RecoveryCompleted(kind, id), env) && outcome == Left(env)
    else
      after.results == w.results && outcome == Failed(false)
  }

  /** A recovery deletion acts on the user of the aggregate and on no other. */
  lemma RecoveryDeletion(w: World, e: Envelope, env: Env)
    requires Keyed(w.store.db.rows) && AboutUsers(e) && ToLower(e.operation) == "delete"
    ensures var (after, outcome), id := HandleRecovery(w, Some(e), env), e.aggregateId;
            var removed := id in w.store.db.rows && env.db.Applies();
            && after.store.db.rows == (if removed then w.store.db.rows - {id} else w.store.db.rows)
            && after.store.db.outbox == LoggedDeletion(w.store.db, removed, id)
            && Completes(w, after, outcome, Delete, id, env)
  {
    DeletionOutcome(w.store, e.aggregateId, env);
  }

  /** The same for a recovery activation or deactivation, which changes the status of the row. */
  lemma RecoveryOfStatus(w: World, e: Envelope, env: Env, active: bool)
    requires Keyed(w.store.db.rows) && AboutUsers(e)
    requires ToLower(e.operation) == if active then "activate" else "deactivate"
    ensures var (after, outcome), id := HandleRecovery(w, Some(e), env), e.aggregateId;
            && (if id in w.store.db.rows && env.db.Applies() then
                  var status := if active then Active else RegistrationFailed;
                  var row := WithStatus(w.store.db.rows[id], active, status, env.now);
                  && after.store.db.rows == w.store.db.rows[id := row]
                  && after.store.db.outbox == w.store.db.outbox + [Event(id, Updated, row)]
                else after.store.db == w.store.db)
            && Completes(w, after, outcome, if active then Activate else Deactivate, id, env)
  {
    if active {
      ActivationChangesTable(w.store, e.aggregateId, env);
      ActivationAnswers(w.store, e.aggregateId, env);
    } else {
      DeactivationChangesTable(w.store, e.aggregateId, env);
      DeactivationAnswers(w.store, e.aggregateId, env);
    }
  }

  /**
   * A recovery creation is for the user of the payload if it names one, else for that of
   * the aggregate, else for the principal; without any of them it fails for good.
   */
  lemma RecoveryCreation(w: World, e: Envelope, env: Env, id: string)
    requires AboutUsers(e) && (ToLower(e.operation) == "post" || ToLower(e.operation) == "create") && e.payload.Some?
    requires e.payload.value.id != "" ==> id == e.payload.value.id
    requires e.payload.value.id == "" && e.aggregateId != "" ==> id == e.aggregateId
    requires e.payload.value.id == "" && e.aggregateId == "" ==> id == e.recoveryPrincipalId
    ensures var (after, outcome) := HandleRecovery(w, Some(e), env);
            var p := e.payload.value.(id := id, avatarId := "");
            var inserted := CanInsert(w.store.db, p) && env.db.Applies();
            var ok := CanInsert(w.store.db, p) && env.db.NoFault? && env.write.NoFault?;
            && after.store.db.rows
               == (if inserted then w.store.db.rows[id := FreshRow(p, env.now)] else w.store.db.rows)
            && after.store.db.outbox == Logged(w.store.db, inserted, Created, FreshRow(p, env.now))
            && after.results == (if ok then Told(w, RecoveryCompleted(Create, id), env) else w.results)
            && outcome == (if TrimSpace(id) == "" then Failed(true) else if ok then Left(env) else Failed(false))
  {
    var p := e.payload.value.(id := id, avatarId := "");
    if IsUuid(id) { UuidIsTrimmed(id); }
    CreationChangesTable(w.store, p, env);
    CreationAnswers(w.store, p, env);
  }

  /** Every other command changes nothing, publishes nothing and is left for another attempt. */
  lemma RecoveryOfNothing(w: World, e: Envelope, env: Env)
    requires var op := ToLower(e.operation);
             || !AboutUsers(e) || op !in {"post", "create", "delete", "activate", "deactivate"}
             || (op in {"post", "create"} && e.payload.None?)
    ensures HandleRecovery(w, Some(e), env) == (w, Failed(false))
  {
  }
}
