/**
 * The signed session cookie the routers read (`verifyToken`): a JSON
 * payload written at login, or nothing when the cookie is missing, forged
 * or unreadable. Signature checking is not modelled; a payload is either
 * present or not.
 */
module Session {
  import opened Common

  /** The payload's keys, as far as the routers read them. */
  datatype User = User(
    id: Js, discordId: Js, roles: Option<seq<Js>>,
    isOwner: Js, isAdmin: Js, isRaidlead: Js, raidlead: Js,
    displayName: Js, username: Js)
}
