/** The semantic version values the generator reads. Only the three numeric
    components and equality on them are used; an absent version is
    `Options.None`. */
module Versions {

  datatype Version = Version(major: nat, minor: nat, patch: nat)
}
