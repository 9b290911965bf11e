/** One reconcile pass as a coroutine: what it remembers between two API calls, the
    call it makes next, and how it goes on with the answer. */
module Reconcile {
  import opened Types
  import opened Apps
  import opened Children
  import opened Api
  import opened StringLists

  /** `cr` is the pass's in-memory copy.  `Removing(cr, [])` is about to drop the
      finalizer.  `Stopped` returned without having run every block; `Converged` ran them all. */
  datatype Pass =
    | Reading
    | Marking(cr: Cr)
    | Removing(cr: Cr, todo: seq<Key>)
    | Looking(cr: Cr, piece: Piece)
    | Writing(cr: Cr, piece: Piece, found: bool, manifest: Manifest)
    | Stopped(failed: bool)
    | Converged(cr: Cr)
  {
    predicate Terminal() {
      Stopped? || Converged?
    }

    predicate Failed() {
      this == Stopped(true)
    }
  }

  function Pending(k: CrKey, p: Pass): Call
    requires !p.Terminal()
  {
    match p
    case Reading => GetCr(k)
    case Marking(cr) => UpdateCr(k, cr.(finalizers := cr.finalizers + [FINALIZER]))
    case Removing(cr, todo) =>
      if todo == [] then UpdateCr(k, cr.(finalizers := Without(cr.finalizers, FINALIZER))) else DeleteChild(todo[0])
    case Looking(cr, q) => GetChild(Lookup(k, q))
    case Writing(cr, q, found, m) => if found then UpdateChild(m) else CreateChild(m)
  }

  function AfterRead(k: CrKey, cr: Cr): Pass {
    if cr.deleting then
      if FINALIZER in cr.finalizers then Removing(cr, Teardown(k, cr.spec)) else Stopped(false)
    else if FINALIZER in cr.finalizers then FirstBlock(k, cr)
    else Marking(cr)
  }

  function FirstBlock(k: CrKey, cr: Cr): Pass {
    if k.name == "" then Stopped(false) else Looking(cr, EsSts)
  }

  function NextBlock(cr: Cr, q: Piece): Pass {
    match Next(cr.spec, q)
    case Nil => Converged(cr)
    case Val(q') => Looking(cr, q')
  }

  /** The metrics block sets the data centre of the in-memory copy before it generates. */
  function Adjusted(cr: Cr, q: Piece): Cr {
    if q == MtSts then cr.(spec := WithDc(cr.spec)) else cr
  }

  function AfterLook(g: Generator, k: CrKey, cr: Cr, q: Piece, found: bool): Pass {
    if CreateOnly(q) && found then NextBlock(cr, q)
    else
      var cr' := Adjusted(cr, q);
      match g(k, cr'.spec, q)
      case Nil => Stopped(true)
      case Val(m) => Writing(cr', q, found, m)
  }

  function Resume(g: Generator, k: CrKey, p: Pass, r: Reply): Pass
    requires !p.Terminal()
  {
    match p
    case Reading =>
      (match r
       case FoundCr(cr) => AfterRead(k, cr)
       case NotFound => Stopped(false)
       case _ => Stopped(true))
    case Marking(cr) =>
      if r.Accepted? then FirstBlock(k, cr.(rv := r.rv, finalizers := cr.finalizers + [FINALIZER])) else Stopped(true)
    case Removing(cr, todo) =>
      if todo == [] then Stopped(!r.Accepted?)
      else if r.Accepted? || r.NotFound? then Removing(cr, todo[1..])
      else Stopped(true)
    case Looking(cr, q) =>
      if r.Found? || r.NotFound? then AfterLook(g, k, cr, q, r.Found?) else Stopped(true)
    case Writing(cr, q, _, _) =>
      if r.Accepted? then NextBlock(cr, q) else Stopped(true)
  }

  /** The number of calls a pass can still make is below its rank. */
  function Rank(p: Pass): nat {
    match p
    case Reading => 40
    case Marking(_) => 30
    case Removing(_, todo) => 1 + |todo|
    case Looking(_, q) => 24 - 2 * Ord(q)
    case Writing(_, q, _, _) => 23 - 2 * Ord(q)
    case Stopped(_) => 0
    case Converged(_) => 0
  }

  lemma RankDecreases(g: Generator, k: CrKey, p: Pass, r: Reply)
    requires !p.Terminal()
    ensures Rank(Resume(g, k, p, r)) < Rank(p)
  {
    if p.Reading? && r.FoundCr? {
      NamesToKeysLength(k, StatefulSetNames(k, r.cr.spec));
    }
  }

  /** One call of a pass.  `before` is set when others changed the store since the last call. */
  datatype Tick = Tick(before: Opt<Store>, fault: Fault)

  function First(script: seq<Tick>): Tick {
    if script == [] then Tick(Nil, Fine) else script[0]
  }

  function Rest(script: seq<Tick>): seq<Tick> {
    if script == [] then [] else script[1..]
  }

  function Seen(s: Store, t: Tick): Store {
    match t.before
    case Nil => s
    case Val(x) => x
  }

  datatype Outcome = Outcome(store: Store, pass: Pass, script: seq<Tick>)

  /** Runs a pass to its end: the calls are served one by one as the script says,
      and without faults once it is used up. */
  function Run(g: Generator, k: CrKey, s: Store, p: Pass, script: seq<Tick>): Outcome
    decreases Rank(p)
  {
    if p.Terminal() then Outcome(s, p, script)
    else
      var (s', r) := Serve(Seen(s, First(script)), Pending(k, p), First(script).fault);
      RankDecreases(g, k, p, r);
      Run(g, k, s', Resume(g, k, p, r), Rest(script))
  }
}
