/** The optional value used wherever the source uses a nullable reference
    (a held animation, the current drag constraint) or an exception that
    signals "no result" (a Cardan/Euler singularity). */
module Wrappers {

  datatype Option<+T> = None | Some(value: T)
}
