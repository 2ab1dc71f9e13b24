/** The identities restore compares: a regular file is known by its size, its
    SHA-256 and its permission bits, and a missing object by None. */
module Identities {
  datatype Option<+T> = None | Some(value: T)

  datatype Identity = Identity(size: nat, sha256: string, mode: nat)

  /** What the paths of interest hold; a path outside the domain is absent. */
  type World = map<string, Identity>

  function At<T>(world: map<string, T>, path: string): Option<T> {
    if path in world then Some(world[path]) else None
  }

  function Put<T>(world: map<string, T>, path: string, value: Option<T>): map<string, T> {
    match value
    case Some(held) => world[path := held]
    case None => world - {path}
  }

  /** Planning compares content only; permission bits do not make a target differ. */
  predicate SameContent(first: Identity, second: Identity) {
    first.size == second.size && first.sha256 == second.sha256
  }
}
