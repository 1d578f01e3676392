/** The user entity, the refusals a request can get, and the ways a store can fail. */
module Domain {
  import opened Wrappers
  import opened Text

  datatype Status = PendingRegistration | Active | RegistrationFailed

  /**
   * The domain user without its timestamps. Reads from the cache carry no status,
   * and reads from the table carry no display name or avatar URL.
   */
  datatype User = User(
    id: string, username: string, displayName: string,
    firstName: string, lastName: string,
    avatarId: string, avatarUrl: string, about: string,
    isActive: bool, status: Option<Status>)

  datatype CreateUserParams = CreateUserParams(
    id: string, username: string, firstName: string, lastName: string, avatarId: string)

  datatype Error =
    | InvalidUserID | InvalidUsername | UserIDAlreadyTaken | UsernameAlreadyTaken | UserNotFound
    | FailedToCreateUser | FailedToFindUser | FailedToDeleteUser
    | CacheFailed | InvalidPayload

  /**
   * What happens to one call to a store: it goes through, it never reaches the store,
   * or it takes effect and only its reply is lost. The caller sees the last two alike.
   */
  datatype Fault = NoFault | Lost | ReplyLost {
    predicate Applies() { !Lost? }
  }

  /** Canonical text of a UUID: 8-4-4-4-12 lower-case hexadecimal digits. */
  predicate IsUuid(s: string) {
    && |s| == 36
    && forall i :: 0 <= i < 36 ==>
         if i == 8 || i == 13 || i == 18 || i == 23 then s[i] == '-'
         else '0' <= s[i] <= '9' || 'a' <= s[i] <= 'f'
  }

  lemma UuidIsTrimmed(s: string)
    requires IsUuid(s)
    ensures s != "" && TrimSpace(s) == s
  {
    assert !IsSpace(s[0]) && !IsSpace(s[35]);
    TrimSpaceFixes(s);
  }
}
