/** The domain model: users, their identifiers and the closed role enumeration. */
module Models {
  import opened Errors

  /** uuid.UUID: sixteen bytes. */
  type Uuid = b: seq<bv8> | |b| == 16 witness [0, 0, 0, 0, 0, 0, 0, 0, 0, 0, 0, 0, 0, 0, 0, 0]

  /** uuid.Nil, the zero value of uuid.UUID. */
  const NilUuid: Uuid := [0, 0, 0, 0, 0, 0, 0, 0, 0, 0, 0, 0, 0, 0, 0, 0]

  /** models.Role: the two named roles and the `Unknown` sentinel, whose slug is
      empty (so `Unknown` is also the zero value of the Go struct). */
  datatype Role = Unknown | Member | Admin {

    /** Role.String: the role's slug. */
    function String(): (slug: string)
      ensures slug == "" <==> this == Unknown
    {
      match this
      case Unknown => ""
      case Member => "member"
      case Admin => "admin"
    }
  }

  /** RoleFromString: exact, case-sensitive match against the named roles' slugs.
      A successful parse yields a named role whose slug is the input; every other
      input yields `Unknown` together with an error naming the input. */
  function RoleFromString(s: string): (res: (Role, Option<Error>))
    ensures res.1.None? <==> exists r: Role :: r != Unknown && r.String() == s
    ensures res.1.None? ==> res.0 != Unknown && res.0.String() == s
    ensures res.1.Some? ==> res.0 == Unknown && res.1.value == Error("unknown role: " + s)
  {
    if s == Member.String() then (Member, None)
    else if s == Admin.String() then (Admin, None)
    else (Unknown, Some(Error("unknown role: " + s)))
  }

  /** Printing a named role and parsing it back gives the role, with no error. */
  lemma RoleRoundTrip(r: Role)
    requires r != Unknown
    ensures RoleFromString(r.String()) == (r, None)
  {
  }

  /** The slugs of the three constants are pairwise different. */
  lemma RoleStringInjective(a: Role, b: Role)
    ensures a.String() == b.String() ==> a == b
  {
  }

  /** models.User. */
  datatype User = User(id: Uuid, username: string, role: Role)

  /** models.User{}: nil id, empty username, the zero role. */
  const ZeroUser: User := User(NilUuid, "", Unknown)
}
