/** The role predicates of LittleLemonAPI/permissions.py. A role is never
    stored: it is read off the names of the groups a user belongs to, and off
    the staff flag. */
module Roles {

  type UserId = int

  const ManagerGroup: string := "Manager"
  /** Note the lower-case "c": a group called "Delivery Crew" is not this one. */
  const DeliveryCrewGroup: string := "Delivery crew"

  /** A stored user account: the names of its groups and its staff flag. */
  datatype Account = Account(groups: set<string>, isStaff: bool)

  /** The identity attached to a request: an anonymous visitor (who belongs to
      no group and is not staff) or a signed-in user. */
  datatype Principal = Anonymous | SignedIn(id: UserId, account: Account)
  {
    function Groups(): set<string>
    {
      if Anonymous? then {} else account.groups
    }

    predicate IsStaff()
    {
      SignedIn? && account.isStaff
    }
  }

  /** Membership of the group named exactly "Manager"; only a signed-in user
      can hold it. */
  function IsManager(p: Principal): (b: bool)
    ensures b ==> IsAuthenticated(p)
  {
    ManagerGroup in p.Groups()
  }

  /** Membership of the group named exactly "Delivery crew"; only a signed-in
      user can hold it. */
  function IsDeliveryCrew(p: Principal): (b: bool)
    ensures b ==> IsAuthenticated(p)
  {
    DeliveryCrewGroup in p.Groups()
  }

  /** A customer is a caller in no group at all, so membership of any group,
      even one no check recognises, takes the customer role away. */
  function IsCustomer(p: Principal): (b: bool)
    ensures b ==> !IsManager(p) && !IsDeliveryCrew(p)
  {
    p.Groups() == {}
  }

  /** A caller who is not signed in has no group and no staff flag. */
  function IsAuthenticated(p: Principal): (b: bool)
    ensures !b ==> p.Groups() == {} && !p.IsStaff()
  {
    p.SignedIn?
  }

  /** Staff flag or Manager group; only a signed-in user can hold either. */
  function IsAdminOrManager(p: Principal): (b: bool)
    ensures IsManager(p) ==> b
    ensures b ==> IsAuthenticated(p)
  {
    p.IsStaff() || IsManager(p)
  }

  lemma CustomerIffNoGroup(p: Principal, g: string)
    ensures g in p.Groups() ==> !IsCustomer(p)
    ensures IsCustomer(p) <==> forall h :: h !in p.Groups()
  {
    if !IsCustomer(p) {
      var h :| h in p.Groups();
    }
  }

  /** A staff user outside every group passes IsAdminOrManager, yet is not a
      Manager: group checks elsewhere treat them as a customer. */
  lemma StaffOutsideGroupsIsNoManager(id: UserId)
    ensures var p := SignedIn(id, Account({}, true));
      IsAdminOrManager(p) && !IsManager(p) && IsCustomer(p)
  {
  }

  /** The crew check is case-sensitive: "Delivery Crew" is some other group. */
  lemma CrewGroupNameIsCaseSensitive(id: UserId, isStaff: bool)
    ensures var p := SignedIn(id, Account({"Delivery Crew"}, isStaff));
      !IsDeliveryCrew(p) && !IsManager(p) && !IsCustomer(p)
  {
    assert "Delivery Crew"[9] != DeliveryCrewGroup[9];
  }

  /** An anonymous visitor belongs to no group, so it passes IsCustomer. */
  lemma AnonymousIsCustomer()
    ensures IsCustomer(Anonymous) && !IsAuthenticated(Anonymous)
    ensures !IsAdminOrManager(Anonymous)
  {
  }
}
