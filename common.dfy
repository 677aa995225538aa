/** Types shared by the access-token service and the access-log aspect. */
module Common {

  /** A value that may be absent; stands for a Java reference that may be null. */
  datatype Option<+T> = None | Some(value: T)

  /** The two kinds of account: an administrator or an ordinary user. */
  datatype UserType = AdminUser | GeneralUser

  /** The logged-in user as the transport layer hands it to the core. */
  datatype User = User(id: int, userName: string, userType: UserType)

  /** Wall-clock time in milliseconds since the epoch (a java.util.Date). */
  type Date = int
}
