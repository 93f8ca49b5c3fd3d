/** Derived facts about the current user profile and the shallow profile merge. */
module Profiles {
  import opened Values

  /** The profile field holding the member's role, and the privileged role value. */
  const MembershipField := "membershipType"
  const StaffRole := "Staff"

  /** Optional chaining on a possibly absent profile: `None` stands for `undefined`. */
  function Lookup(user: Option<Profile>, key: string): Option<Value>
  {
    match user
    case None => None
    case Some(p) => if key in p then Some(p[key]) else None
  }

  /** The admin flag: the current user exists and its role is strictly equal to "Staff". */
  function IsAdmin(user: Option<Profile>): (admin: bool)
    ensures admin <==> user.Some? && MembershipField in user.value
                       && user.value[MembershipField] == Str(StaffRole)
    ensures user == None ==> !admin
  {
    Lookup(user, MembershipField) == Some(Str(StaffRole))
  }

  /** The own fields of an object spread into a literal; spreading `null` adds none. */
  function Fields(user: Option<Profile>): Profile
  {
    match user
    case None => map[]
    case Some(p) => p
  }

  /**
   * The object built by spreading the current user and then the response data into
   * one literal: the later spread wins on a shared key, every other key is kept.
   */
  function MergeProfile(current: Option<Profile>, patch: Option<Profile>): (merged: Profile)
    ensures merged.Keys == Fields(current).Keys + Fields(patch).Keys
    ensures forall k :: k in Fields(patch) ==> merged[k] == Fields(patch)[k]
    ensures forall k :: k in Fields(current) && k !in Fields(patch) ==> merged[k] == Fields(current)[k]
  {
    Fields(current) + Fields(patch)
  }

  /** Merging the same response a second time changes nothing. */
  lemma MergeIdempotent(current: Option<Profile>, patch: Option<Profile>)
    ensures MergeProfile(Some(MergeProfile(current, patch)), patch) == MergeProfile(current, patch)
  {
  }

  /** A response that mentions no field leaves the profile as it was. */
  lemma MergeEmptyResponse(p: Profile)
    ensures MergeProfile(Some(p), Some(map[])) == p
    ensures MergeProfile(Some(p), None) == p
  {
  }

  /**
   * The worked merge: name is overridden, id and membershipType are retained.
   */
  lemma MergeExample()
    ensures MergeProfile(
              Some(map["id" := Num(1), "name" := Str("A"), MembershipField := Str("Member")]),
              Some(map["name" := Str("B")]))
            == map["id" := Num(1), "name" := Str("B"), MembershipField := Str("Member")]
  {
  }
}
