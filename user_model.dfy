/**
 * The User record as the handlers read and write it: profile fields, the
 * role, the credit balance (integer cents) and the active flag. The schema
 * file itself (src/models/user.model.js) is not part of this model; the
 * fields below are the ones the handlers touch.
 */
module UserModel {
  import opened Util

  const UserRole: string := "user"
  const AdminRole: string := "admin"

  class User {
    const id: Id
    const username: string
    var name: string
    var email: string
    var phoneNumber: string
    var address: string
    var role: string
    /** The credit balance, in cents. */
    var credits: int
    var isActive: bool

    constructor (id: Id, name: string, username: string, email: string, phoneNumber: string,
                 address: string, role: string, credits: int, isActive: bool)
      ensures this.id == id && this.name == name && this.username == username
      ensures this.email == email && this.phoneNumber == phoneNumber && this.address == address
      ensures this.role == role && this.credits == credits && this.isActive == isActive
    {
      this.id := id;
      this.name := name;
      this.username := username;
      this.email := email;
      this.phoneNumber := phoneNumber;
      this.address := address;
      this.role := role;
      this.credits := credits;
      this.isActive := isActive;
    }
  }
}
