/** The identifier of a registered user, shared by users and the contacts they own. */
module Identity {

  type UserId = nat
}
