/** When the service's availability check can be trusted by a caller who is about to create a user. */
module UsernameAvailability {
  import opened Wrappers
  import opened Text
  import opened Domain
  import opened UserTable
  import opened UserService
  import opened Outbox

  /** "Not taken" means that creating a fresh user under that name meets no uniqueness conflict. */
  ghost predicate CheckPredictsCreate(db: Db, p: CreateUserParams, now: int) {
    ExistsByUsername(db, p.username, NoFault) == Success(false) && IsUuid(p.id) && p.id !in db.rows ==>
      CreateRow(db, p, now, NoFault).1.Success?
  }

  ghost function TableWith(username: string, id: string): Db {
    Write(EMPTY_DB, Created, NewRow(CreateUserParams(id, username, "", "", ""), 0))
  }

  /**
   * The check trims its argument and creation does not, so it predicts creation for
   * every table exactly when the name is trimmed.
   */
  lemma AvailabilityIsReliableIffTrimmed(p: CreateUserParams, now: int, other: string)
    requires !Blank(p.username) && IsUuid(p.id) && IsUuid(other) && other != p.id
    ensures (forall db: Db :: Lawful(db) ==> CheckPredictsCreate(db, p, now)) <==> Trimmed(p.username)
  {
    TrimSpaceFixes(p.username);
    if !Trimmed(p.username) {
      var db := TableWith(p.username, other);
      assert db == Run(EMPTY_DB, [Create(CreateUserParams(other, p.username, "", "", ""), 0, NoFault)]) by {
        var cs := [Create(CreateUserParams(other, p.username, "", "", ""), 0, NoFault)];
        assert cs[..0] == [] && Run(EMPTY_DB, cs[..0]) == EMPTY_DB;
      }
      RunIsLawful(EMPTY_DB, [Create(CreateUserParams(other, p.username, "", "", ""), 0, NoFault)]);
      assert UsernameTaken(db.rows, p.username) by { assert db.rows[other].username == p.username; }
      assert !CheckPredictsCreate(db, p, now);
    }
  }
}
