/** Identities and the `profiles` table: the role is the only authorization
    discriminant the screens consult. */
module Accounts {
  import opened Wrappers
  import opened Seqs

  type UserId = string

  datatype Role = Admin | Personel

  /** A row of `profiles`. Timestamps are abstract ordered values. */
  datatype Profile = Profile(id: UserId, email: string, role: Role, createdAt: int, updatedAt: int)

  /** `profile?.role === 'admin'`: an absent profile is not an admin. */
  predicate IsAdmin(p: Option<Profile>)
  {
    p.Some? && p.value.role == Admin
  }

  function ProfileCreatedAt(p: Profile): int
  {
    p.createdAt
  }

  /** The profile row written right after sign-up: every new account starts as staff. */
  function SignUpProfile(id: UserId, email: string, now: int): (p: Profile)
    ensures p.id == id && p.email == email
    ensures p.role == Personel && !IsAdmin(Some(p))
  {
    Profile(id, email, Personel, now, now)
  }

  /** The role a toggle button switches to: always the other one. */
  function ToggledRole(r: Role): (t: Role)
    ensures t != r
  {
    if r == Admin then Personel else Admin
  }

  /** Toggling twice restores the role. */
  lemma ToggleInvolution(r: Role)
    ensures ToggledRole(ToggledRole(r)) == r
  {
  }

  /** The `profiles` table of the backend, as an in-memory sequence of rows. */
  class ProfileTable {
    var rows: seq<Profile>

    constructor (initial: seq<Profile>)
      ensures rows == initial
    {
      rows := initial;
    }

    /** `select('*').order('created_at', { ascending: false })`; `fails` is the backend's error outcome. */
    method SelectNewestFirst(fails: bool) returns (res: Option<seq<Profile>>)
      ensures fails ==> res == None
      ensures !fails ==> res.Some? && multiset(res.value) == multiset(rows) && SortedDesc(res.value, ProfileCreatedAt)
    {
      if fails {
        res := None;
      } else {
        res := Some(SortDesc(rows, ProfileCreatedAt));
      }
    }

    /** `select('*')` without ordering. */
    method SelectAll(fails: bool) returns (res: Option<seq<Profile>>)
      ensures res == if fails then None else Some(rows)
    {
      res := if fails then None else Some(rows);
    }

    /** `select('id', { count: 'exact' })`: the number of profiles, or no count on failure. */
    method CountAll(fails: bool) returns (c: Option<nat>)
      ensures c == if fails then None else Some(|rows|)
    {
      c := if fails then None else Some(|rows|);
    }

    /** `update({ role, updated_at: now }).eq('id', id)`: every row with that id gets the
        new role and timestamp; all other fields and rows stay as they were. */
    method SetRoleStamped(id: UserId, role: Role, now: int, fails: bool) returns (ok: bool)
      modifies this
      ensures ok == !fails
      ensures |rows| == |old(rows)|
      ensures forall i :: 0 <= i < |rows| ==>
        rows[i] == if ok && old(rows)[i].id == id then old(rows)[i].(role := role, updatedAt := now) else old(rows)[i]
    {
      ok := !fails;
      if ok {
        rows := seq(|rows|, i requires 0 <= i < |rows| reads this =>
          if rows[i].id == id then rows[i].(role := role, updatedAt := now) else rows[i]);
      }
    }

    /** `update({ role }).eq('id', id)`: only the role of the rows with that id changes. */
    method SetRole(id: UserId, role: Role, fails: bool) returns (ok: bool)
      modifies this
      ensures ok == !fails
      ensures |rows| == |old(rows)|
      ensures forall i :: 0 <= i < |rows| ==>
        rows[i] == if ok && old(rows)[i].id == id then old(rows)[i].(role := role) else old(rows)[i]
    {
      ok := !fails;
      if ok {
        rows := seq(|rows|, i requires 0 <= i < |rows| reads this =>
          if rows[i].id == id then rows[i].(role := role) else rows[i]);
      }
    }
  }
}
