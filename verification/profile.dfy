/** `isProfileComplete`: a checkout gate on the user's first saved address. */
module Profile {
  import opened Base

  datatype Address = Address(street: Option<string>, city: Option<string>, pincode: Option<string>)

  /** A user record, as far as the check reads it; `addresses` is None when
      the field is missing. */
  datatype User = User(addresses: Option<seq<Address>>)

  predicate AddressComplete(a: Address)
  {
    Truthy(a.street) && Truthy(a.city) && Truthy(a.pincode)
  }

  /** True iff there is a user whose first address has a non-empty street,
      city and pincode; later addresses are never looked at. */
  function IsProfileComplete(user: Option<User>): (r: bool)
    ensures user.None? ==> !r
    ensures r <==> user.Some? && user.value.addresses.Some? && |user.value.addresses.value| > 0
                   && AddressComplete(user.value.addresses.value[0])
  {
    match user
    case None => false
    case Some(u) =>
      match u.addresses
      case None => false
      case Some(addrs) => |addrs| > 0 && AddressComplete(addrs[0])
  }

  /** A complete address in second place does not help when the first is
      incomplete. */
  lemma OnlyFirstAddressCounts(first: Address, rest: seq<Address>)
    requires !AddressComplete(first)
    ensures !IsProfileComplete(Some(User(Some([first] + rest))))
  {
  }
}
