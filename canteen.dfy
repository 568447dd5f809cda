/** The canteen fields the core reads, the caller identity and the owner/admin checks. */
module CanteenModel {
  import opened Wrappers

  /** `isOpen` as read from a canteen document: absent, or a stored boolean. */
  datatype OpenFlag = Unset | Flag(open: bool)

  /** A canteen; opening and closing times are "HH:MM" strings, "" when absent. */
  datatype Canteen = Canteen(ownerId: string, isOpen: OpenFlag, openingTime: string, closingTime: string)

  datatype Role = Admin | Customer | CanteenOwner

  /** The authenticated caller. */
  datatype User = User(id: string, role: Role)

  /** JavaScript truthiness of `isOpen`. */
  predicate OpenTruthy(f: OpenFlag) {
    f == Flag(true)
  }

  predicate IsAdmin(u: User) {
    u.role == Admin
  }

  /** The caller owns the canteen; a canteen that could not be loaded is owned by nobody. */
  predicate IsCanteenOwner(u: User, c: Option<Canteen>) {
    c.Some? && c.value.ownerId == u.id
  }

  /** The staff check of the order, menu and analytics handlers. */
  predicate MayManage(u: User, c: Option<Canteen>) {
    IsAdmin(u) || IsCanteenOwner(u, c)
  }

}
