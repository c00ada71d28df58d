/**
 * The moderator query of process_video: the distinct users that hold the
 * review permission directly or through one of their groups. The join the
 * query makes can list a user once per way it qualifies; `.distinct()` then
 * keeps each user once.
 */
module Moderation {

  datatype Profile = Profile(displayName: string, region: string, country: string)

  /** A user row: its permissions held directly and the groups it belongs to. */
  datatype User = User(id: int, email: string, profile: Profile,
                       permissions: set<string>, groups: seq<int>)

  /** The permissions each group grants, by group id. */
  type GroupPermissions = map<int, set<string>>

  /** The codename of the review permission. */
  const ReviewPermission: string := "change_video2013"

  /** Whether one of the groups (by position) grants perm. */
  predicate GrantedByGroup(groups: seq<int>, grants: GroupPermissions, perm: string)
  {
    exists i :: 0 <= i < |groups| && groups[i] in grants && perm in grants[groups[i]]
  }

  /** `Q(groups__permissions=perm) | Q(user_permissions=perm)` for one user. */
  predicate Qualifies(u: User, grants: GroupPermissions, perm: string)
    ensures Qualifies(u, grants, perm) <==>
      perm in u.permissions || exists g :: g in u.groups && g in grants && perm in grants[g]
  {
    GrantedByGroupMember(u.groups, grants, perm);
    perm in u.permissions || GrantedByGroup(u.groups, grants, perm)
  }

  /** A group grants perm at some position exactly when some group in the list grants it. */
  lemma GrantedByGroupMember(groups: seq<int>, grants: GroupPermissions, perm: string)
    ensures GrantedByGroup(groups, grants, perm) <==> exists g :: g in groups && g in grants && perm in grants[g]
  {
    if exists g :: g in groups && g in grants && perm in grants[g] {
      var g :| g in groups && g in grants && perm in grants[g];
      var i :| 0 <= i < |groups| && groups[i] == g;
    }
  }

  /** One row for u per group of u that grants perm. */
  function GroupRows(u: User, groups: seq<int>, grants: GroupPermissions, perm: string): (r: seq<User>)
    ensures |r| <= |groups|
    ensures forall i :: 0 <= i < |r| ==> r[i] == u
  {
    if groups == [] then []
    else (if groups[0] in grants && perm in grants[groups[0]] then [u] else [])
         + GroupRows(u, groups[1..], grants, perm)
  }

  /** The rows of the joined query before `.distinct()`: a user may appear several times. */
  function JoinRows(users: seq<User>, grants: GroupPermissions, perm: string): (r: seq<User>)
    ensures forall i :: 0 <= i < |r| ==> r[i] in users
  {
    if users == [] then []
    else (if perm in users[0].permissions then [users[0]] else [])
         + GroupRows(users[0], users[0].groups, grants, perm)
         + JoinRows(users[1..], grants, perm)
  }

  /** No element occurs twice. */
  predicate NoDuplicates<T(==)>(s: seq<T>)
  {
    forall i, j :: 0 <= i < j < |s| ==> s[i] != s[j]
  }

  /** `.distinct()`: each row once, at the place of its last occurrence. */
  function Distinct<T(==)>(s: seq<T>): (r: seq<T>)
    ensures NoDuplicates(r)
    ensures forall i :: 0 <= i < |s| ==> s[i] in r
    ensures forall i :: 0 <= i < |r| ==> r[i] in s
    ensures |r| <= |s|
  {
    if s == [] then []
    else
      var rest := Distinct(s[1..]);
      if s[0] in rest then rest
      else
        var r := [s[0]] + rest;
        assert forall i :: 1 <= i < |r| ==> r[i] == rest[i - 1];
        r
  }

  lemma {:induction false} GroupRowsMembers(u: User, groups: seq<int>, grants: GroupPermissions, perm: string, x: User)
    ensures x in GroupRows(u, groups, grants, perm) <==> x == u && GrantedByGroup(groups, grants, perm)
  {
    if groups != [] {
      GroupRowsMembers(u, groups[1..], grants, perm, x);
      if GrantedByGroup(groups[1..], grants, perm) {
        var i :| 0 <= i < |groups[1..]| && groups[1..][i] in grants && perm in grants[groups[1..][i]];
        assert groups[i + 1] == groups[1..][i];
      }
      if GrantedByGroup(groups, grants, perm) && !(groups[0] in grants && perm in grants[groups[0]]) {
        var i :| 0 <= i < |groups| && groups[i] in grants && perm in grants[groups[i]];
        assert groups[1..][i - 1] == groups[i];
      }
    }
  }

  /** A user is among the joined rows exactly when it is a user that qualifies. */
  lemma {:induction false} JoinRowsMembers(users: seq<User>, grants: GroupPermissions, perm: string, x: User)
    ensures x in JoinRows(users, grants, perm) <==> x in users && Qualifies(x, grants, perm)
  {
    if users != [] {
      JoinRowsMembers(users[1..], grants, perm, x);
      GroupRowsMembers(users[0], users[0].groups, grants, perm, x);
      assert x in users <==> x == users[0] || x in users[1..];
    }
  }

  /** `User.objects.filter(Q(groups__permissions=perm) | Q(user_permissions=perm)).distinct()`. */
  function Moderators(users: seq<User>, grants: GroupPermissions, perm: string): (r: seq<User>)
    ensures NoDuplicates(r)
    ensures forall x :: x in r <==> x in users && Qualifies(x, grants, perm)
  {
    var rows := JoinRows(users, grants, perm);
    assert forall x :: x in rows <==> x in users && Qualifies(x, grants, perm) by {
      forall x ensures x in rows <==> x in users && Qualifies(x, grants, perm) {
        JoinRowsMembers(users, grants, perm, x);
      }
    }
    Distinct(rows)
  }

  /** `[u.email for u in moderators]`. */
  function Emails(us: seq<User>): (r: seq<string>)
    ensures |r| == |us|
    ensures forall i :: 0 <= i < |us| ==> r[i] == us[i].email
  {
    if us == [] then [] else [us[0].email] + Emails(us[1..])
  }

  /** The recipients of the moderation email. */
  function Recipients(users: seq<User>, grants: GroupPermissions): (r: seq<string>)
    ensures |r| == |Moderators(users, grants, ReviewPermission)|
    ensures forall e :: e in r ==> exists u :: u in users && Qualifies(u, grants, ReviewPermission) && u.email == e
  {
    Emails(Moderators(users, grants, ReviewPermission))
  }

  /**
   * One address per distinct moderator, in the query's order: a user qualifying
   * both directly and through a group still receives one address, and every
   * address belongs to a qualifying user.
   */
  lemma RecipientsOnePerModerator(users: seq<User>, grants: GroupPermissions)
    ensures var ms := Moderators(users, grants, ReviewPermission);
      |Recipients(users, grants)| == |ms|
      && NoDuplicates(ms)
      && (forall i :: 0 <= i < |ms| ==> Recipients(users, grants)[i] == ms[i].email)
      && (forall u :: u in users && Qualifies(u, grants, ReviewPermission) ==> u.email in Recipients(users, grants))
      && (forall e :: e in Recipients(users, grants) ==>
            exists u :: u in users && Qualifies(u, grants, ReviewPermission) && u.email == e)
  {
  }

  /** Distinct users drawn from a table without shared addresses have distinct addresses. */
  lemma EmailsDistinct(us: seq<User>, users: seq<User>)
    requires NoDuplicates(us)
    requires forall i :: 0 <= i < |us| ==> us[i] in users
    requires forall i, j :: 0 <= i < j < |users| ==> users[i].email == users[j].email ==> users[i] == users[j]
    ensures NoDuplicates(Emails(us))
  {
    var es := Emails(us);
    forall i, j | 0 <= i < j < |es| ensures es[i] != es[j] {
      var a :| 0 <= a < |users| && users[a] == us[i];
      var b :| 0 <= b < |users| && users[b] == us[j];
      assert us[i] != us[j];
      assert a != b;
    }
  }

  /** When no two users share an address, the recipient list has no duplicate address. */
  lemma RecipientsDistinct(users: seq<User>, grants: GroupPermissions)
    requires forall i, j :: 0 <= i < j < |users| ==> users[i].email == users[j].email ==> users[i] == users[j]
    ensures NoDuplicates(Recipients(users, grants))
  {
    var ms := Moderators(users, grants, ReviewPermission);
    assert forall i :: 0 <= i < |ms| ==> ms[i] in users;
    EmailsDistinct(ms, users);
  }

}
