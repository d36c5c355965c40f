/** The runtime profiles a node may be started with. */
module Profiles {
  datatype Profile = SyntheticPrivate | DirectRouting | DirectRoutingPrivatePbxPoc

  predicate Live(profile: Profile) {
    profile != SyntheticPrivate
  }
}
