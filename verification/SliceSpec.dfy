/** What a slice asks at each control point: whether to park, and what to read into its transcript. */
module SliceSpec {
  import opened Options
  import opened Tables
  import opened InboxSpec

  datatype Park = ToSuspend | ToStop | ToHandOver

  datatype Polled = Polled(seen: int, park: Option<Park>, deliver: seq<Message>)

  /** A loop can only stop or pause, so it takes an abort for a stop. */
  function ParkOf(row: Run): Option<Park> {
    if row.requestedAt == None then None
    else if row.intent == Some(Suspend) then Some(ToSuspend)
    else Some(ToStop)
  }

  function Max(a: int, b: int): int {
    if a < b then b else a
  }

  /** Nothing new on either counter: the inbox is not read. */
  predicate NothingNew(row: Run, seen: int, through: int) {
    row.controlSeq == seen && row.messageSeq <= Max(through, 0)
  }

  /** One poll, with whom it asks to hand over to. The transcript holds messages up to `through`. */
  function Poll(db: Db, run: RunId, seen: int, through: int, runAs: Option<Principal>): (Db, Polled, Option<Principal>) {
    if run !in db.runs then (db, Polled(seen, None, []), None)
    else
      var row := db.runs[run];
      if NothingNew(row, seen, through) then (db, Polled(row.controlSeq, ParkOf(row), []), None)
      else
        var drained := Drain(db, run, through, runAs);
        (drained.db,
         Polled(row.controlSeq, if ParkOf(row) == None && drained.handover.Some? then Some(ToHandOver) else ParkOf(row), drained.delivered),
         drained.handover)
  }

  /** How far the transcript reaches once these are pushed onto it. */
  function Through(through: int, delivered: seq<Message>): int {
    if delivered == [] then through
    else Max(Through(through, delivered[..|delivered| - 1]), delivered[|delivered| - 1].num)
  }

  /** Who a slice runs as: the principal its task declares, else the run's own. */
  function SlicePrincipal(declared: Option<Principal>, row: Option<Run>): Option<Principal> {
    if declared.Some? then declared else if row.Some? then row.value.principal else None
  }
}
