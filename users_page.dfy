/** The users screen: a fixed list of users and the two figures shown above
    the table, the number of verified users and the number of admins. */
module UsersPage {
  import opened Common
  import opened Types

  function Member(id: int, name: string, email: string, role: Role, verifiedAt: Option<string>,
                  date: string): User
  {
    User(id, name, email, role, verifiedAt, date, date)
  }

  const MockUsers: seq<User> := [
    Member(1, "Admin", "admin@bookreader.com", Admin, Some("2025-01-01T10:00:00Z"), "2025-01-01T10:00:00Z"),
    Member(2, "John Doe", "john@example.com", PlainUser, Some("2025-01-05T10:00:00Z"), "2025-01-05T10:00:00Z"),
    Member(3, "Jane Smith", "jane@example.com", PlainUser, Some("2025-01-08T10:00:00Z"), "2025-01-08T10:00:00Z"),
    Member(4, "Mike Johnson", "mike@example.com", PlainUser, None, "2025-01-10T10:00:00Z"),
    Member(5, "Sarah Wilson", "sarah@example.com", PlainUser, Some("2025-01-12T10:00:00Z"), "2025-01-12T10:00:00Z")
  ]

  /** A user counts as verified when the verification timestamp is truthy. */
  function IsVerified(u: User): bool
  {
    TruthyString(u.emailVerifiedAt)
  }

  function IsUnverified(u: User): bool
  {
    !TruthyString(u.emailVerifiedAt)
  }

  function IsAdmin(u: User): bool
  {
    u.role == Admin
  }

  function IsPlainUser(u: User): bool
  {
    u.role == PlainUser
  }

  /** The "Verified" figure. */
  function VerifiedCount(users: seq<User>): (n: nat)
    ensures n <= |users|
    ensures n == |users| <==> forall u :: u in users ==> IsVerified(u)
  {
    CountComplement(users, IsVerified, IsUnverified);
    EveryOrNone(users, IsVerified, IsUnverified);
    Count(users, IsVerified)
  }

  /** The "Admins" figure. */
  function AdminCount(users: seq<User>): (n: nat)
    ensures n <= |users|
    ensures n == |users| <==> forall u :: u in users ==> IsAdmin(u)
  {
    CountComplement(users, IsAdmin, IsPlainUser);
    EveryOrNone(users, IsAdmin, IsPlainUser);
    Count(users, IsAdmin)
  }

  /** The complement's count is zero exactly when every element satisfies `p`. */
  lemma EveryOrNone(users: seq<User>, p: User -> bool, q: User -> bool)
    requires forall u :: q(u) == !p(u)
    ensures Count(users, q) == 0 <==> forall u :: u in users ==> p(u)
  {
    if Count(users, q) == 0 {
      assert forall u :: u in users && q(u) ==> u in Filter(users, q);
    } else {
      var u := Filter(users, q)[0];
      assert u in Filter(users, q);
    }
  }

  /** Every user is either verified or not, and either an admin or not. */
  lemma FiguresSplitTheList(users: seq<User>)
    ensures VerifiedCount(users) + Count(users, IsUnverified) == |users|
    ensures AdminCount(users) + Count(users, IsPlainUser) == |users|
  {
    CountComplement(users, IsVerified, IsUnverified);
    CountComplement(users, IsAdmin, IsPlainUser);
  }

  /** An admin first and only plain users after it: exactly one admin. */
  lemma OneAdminFirst(users: seq<User>)
    requires |users| >= 1 && IsAdmin(users[0])
    requires forall i :: 1 <= i < |users| ==> IsPlainUser(users[i])
    ensures AdminCount(users) == 1
  {
    var rest := users[1..];
    CountCons(users, IsAdmin);
    forall u | u in rest
      ensures !IsAdmin(u)
    {
      var i :| 0 <= i < |rest| && rest[i] == u;
      assert u == users[1 + i];
    }
    FilterNone(rest, IsAdmin);
  }

  /** Only the user at index `k` is unverified: all others count as verified. */
  lemma OneUnverified(users: seq<User>, k: nat)
    requires k < |users| && IsUnverified(users[k])
    requires forall i :: 0 <= i < |users| && i != k ==> IsVerified(users[i])
    ensures VerifiedCount(users) == |users| - 1
  {
    FiguresSplitTheList(users);
    var a, b := users[..k], users[k..];
    assert users == a + b;
    CountConcat(a, b, IsUnverified);
    AllVerified(a);
    CountCons(b, IsUnverified);
    AllVerified(b[1..]);
  }

  /** A list of verified users has no unverified one. */
  lemma AllVerified(users: seq<User>)
    requires forall i :: 0 <= i < |users| ==> IsVerified(users[i])
    ensures Count(users, IsUnverified) == 0
  {
    assert forall u :: u in users ==> !IsUnverified(u);
    FilterNone(users, IsUnverified);
  }

  /** A list shaped like the seeded one: one verified admin first, then four
      plain users of whom only the third is unverified. */
  lemma FiguresOfSeededShape(users: seq<User>)
    requires |users| == 5 && IsAdmin(users[0]) && forall i :: 1 <= i < 5 ==> IsPlainUser(users[i])
    requires IsUnverified(users[3]) && forall i :: 0 <= i < 5 && i != 3 ==> IsVerified(users[i])
    ensures VerifiedCount(users) == 4 && AdminCount(users) == 1
  {
    OneAdminFirst(users);
    OneUnverified(users, 3);
  }

  /** No element passes the filter: nothing is kept. */
  lemma FilterNone(users: seq<User>, p: User -> bool)
    requires forall u :: u in users ==> !p(u)
    ensures Count(users, p) == 0
  {
    if |Filter(users, p)| > 0 {
      assert Filter(users, p)[0] in Filter(users, p);
    }
  }

  /** The seeded list: five users, four verified, one admin. */
  lemma MockUsersFigures()
    ensures |MockUsers| == 5
    ensures VerifiedCount(MockUsers) == 4 && AdminCount(MockUsers) == 1
  {
    FiguresOfSeededShape(MockUsers);
  }
}
