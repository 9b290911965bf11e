/** The API server as the operator sees it: one atomic answer a call. */
module Api {
  import opened Types
  import opened Apps

  const FINALIZER := "axonops.com/finalizer"

  /** A stored custom resource.  `rv` orders the writes to one key, across deletion and re-creation. */
  datatype Cr = Cr(rv: nat, deleting: bool, finalizers: seq<string>, spec: Spec)

  /** `marks` holds the highest rv ever used for a key. */
  datatype Store = Store(crs: map<CrKey, Cr>, children: map<Key, Manifest>, marks: map<CrKey, nat>)

  datatype Call =
    | GetCr(k: CrKey)
    | UpdateCr(k: CrKey, cr: Cr)
    | GetChild(key: Key)
    | CreateChild(manifest: Manifest)
    | UpdateChild(manifest: Manifest)
    | DeleteChild(key: Key)

  datatype Reply = Found | FoundCr(cr: Cr) | Accepted(rv: nat) | NotFound | Error

  /** What goes wrong with one call: nothing; refused without effect; an error is
      reported although the call took effect; or the Get of a child answers from a
      stale cache. */
  datatype Fault = Fine | Refused | Blurred | Stale(found: bool)

  function Mark(s: Store, k: CrKey): nat {
    if k in s.marks then s.marks[k] else 0
  }

  /** Writes a resource under a fresh rv.  One that is being deleted goes away with its last finalizer. */
  function Commit(s: Store, k: CrKey, cr: Cr): Store {
    var rv := Mark(s, k) + 1;
    s.(crs := if cr.deleting && cr.finalizers == [] then s.crs - {k} else s.crs[k := cr.(rv := rv)],
       marks := s.marks[k := rv])
  }

  /** The server's own answer.  An Update of a resource is rejected when the rv moved. */
  function Effect(s: Store, c: Call): (Store, Reply) {
    match c
    case GetCr(k) => (s, if k in s.crs then FoundCr(s.crs[k]) else NotFound)
    case UpdateCr(k, cr) =>
      if k !in s.crs then (s, NotFound)
      else if s.crs[k].rv != cr.rv then (s, Error)
      else (Commit(s, k, s.crs[k].(finalizers := cr.finalizers, spec := cr.spec)), Accepted(Mark(s, k) + 1))
    case GetChild(key) => (s, if key in s.children then Found else NotFound)
    case CreateChild(m) =>
      if KeyOf(m) in s.children then (s, Error)
      else (s.(children := s.children[KeyOf(m) := m]), Accepted(0))
    case UpdateChild(m) =>
      if KeyOf(m) !in s.children then (s, NotFound)
      else (s.(children := s.children[KeyOf(m) := m]), Accepted(0))
    case DeleteChild(key) =>
      if key !in s.children then (s, NotFound)
      else (s.(children := s.children - {key}), Accepted(0))
  }

  /** The answers each kind of call can get. */
  predicate Fits(c: Call, r: Reply) {
    match r
    case FoundCr(_) => c.GetCr?
    case Found => c.GetChild?
    case Accepted(_) => !c.GetCr? && !c.GetChild?
    case _ => true
  }

  function Serve(s: Store, c: Call, f: Fault): (served: (Store, Reply))
    ensures Fits(c, served.1)
  {
    match f
    case Fine => Effect(s, c)
    case Refused => (s, Error)
    case Blurred => (Effect(s, c).0, Error)
    case Stale(found) => if c.GetChild? then (s, if found then Found else NotFound) else Effect(s, c)
  }
}
