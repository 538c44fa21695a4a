/** One reconcile, and runs of reconciles. */
module Reconciling {
  import opened Api
  import opened Cluster
  import opened Deploy
  import opened Observing

  datatype Answer = ObserveError | NotExists | Exists(upToDate: bool)

  /** external.Observe: seed the identity of an import, look, and record what was seen. */
  function ObserveResource(w: World): (World, Answer) {
    var ext := w.local.externalName;
    var (w1, ok) :=
      if w.local.status.externalRef == "" && ext != "" && ext != w.local.name then UpdateLocal(w, Seed(ext)) else (w, true);
    if !ok then (w1, ObserveError)
    else
      var (w2, seen) := IsUpToDate(w1);
      match seen
      case NotFound => (w2, NotExists)
      case Failed => (w2, ObserveError)
      case Stalled(_) => (w2, ObserveError)
      case Seen(d, failed, synced, _) =>
        var (w3, recorded) := RefreshAndRecord(w2, d, failed, synced);
        (w3, if recorded then Exists(synced) else ObserveError)
  }

  /** Get the latest version, then deploy. */
  function RefreshAndDeploy(w: World, action: Action): World {
    var (w1, ok) := Get(w);
    if ok then DeployAction(w1, action).0 else w1
  }

  /** external.Delete: an unidentified operation in flight is resumed through CREATE. */
  function Delete(w: World): World {
    var (w1, ok) := Get(w);
    if !ok then w1
    else if w1.local.status.anchor.Some? && w1.local.status.externalRef == "" then DeployAction(w1, Create).0
    else DeployAction(w1, Remove).0
  }

  function DropFinalizer(w: World): World {
    if !Alive(w) then w
    else
      var w1 := Advance(w);
      var reply := w.tape[0].reply;
      if reply.Landed? || reply.LandedUnseen? then Emit(w1, Finalized(w1.server.status)).(finalized := true) else w1
  }

  /** What the managed reconciler does with an observation. */
  function Dispatch(w: World, a: Answer): World {
    match a
    case ObserveError => w
    case NotExists => if w.local.deleted then DropFinalizer(w) else RefreshAndDeploy(w, Create)
    case Exists(upToDate) =>
      if w.local.deleted then Delete(w) else if upToDate then w else RefreshAndDeploy(w, Update)
  }

  function Reconcile(w: World): World {
    if w.finalized then w
    else
      var (w1, ok) := Get(Emit(w, Began));
      if !ok then w1
      else
        var (w2, a) := ObserveResource(w1);
        Dispatch(w2, a)
  }

  /** Any number of reconciles, each against its own tape. */
  function Run(w: World, tapes: seq<seq<Turn>>): World
    decreases |tapes|
  {
    if tapes == [] then w else Run(Reconcile(w.(tape := tapes[0])), tapes[1..])
  }

  /** Reconcile for as long as the operation is in flight. */
  function Attend(w: World, tapes: seq<seq<Turn>>): World
    decreases |tapes|
  {
    if tapes == [] || w.server.status.anchor.None? then w else Attend(Reconcile(w.(tape := tapes[0])), tapes[1..])
  }
}
