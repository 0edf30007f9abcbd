/** The `transfer` table: each SQL statement as a function on the table, and the DAL whose methods run them. */
module Dal {
  import opened Types

  type Table = map<Tid, Row>

  // ----- statements -----

  /** INSERT ... ON CONFLICT DO NOTHING, with the clock and the empty preimage the statement itself supplies. */
  function Inserted(tbl: Table, r: Row, now: Time): Table {
    if r.tid in tbl then tbl
    else tbl[r.tid := r.(preimage := None, updateTs := now, createTs := now)]
  }

  function RelatedPreimageSet(tbl: Table, p: Preimage, rel: Tid): Table {
    map t | t in tbl :: if tbl[t].relTid == rel then tbl[t].(preimage := Some(p)) else tbl[t]
  }

  function ConfirmedIn(tbl: Table, tid: Tid, p: Preimage): Table {
    if tid in tbl then tbl[tid := tbl[tid].(status := Confirmed, preimage := Some(p))] else tbl
  }

  function StatusSet(tbl: Table, tid: Tid, to: Status): Table {
    if tid in tbl then tbl[tid := tbl[tid].(status := to)] else tbl
  }

  function InRecorded(tbl: Table, tid: Tid): Table {
    if tid in tbl && Unsent(tbl[tid].status) then tbl[tid := tbl[tid].(status := Locked)] else tbl
  }

  function AmountAndFeeSet(tbl: Table, tid: Tid, amount: int, fee: int): Table {
    if tid in tbl then tbl[tid := tbl[tid].(amount := amount, fee := fee)] else tbl
  }

  /** The compare-and-set update; the source does not look at the number of rows it hit. */
  function StatusSwapped(tbl: Table, tid: Tid, to: Status, from: Status, now: Time): Table {
    if tid in tbl && tbl[tid].status == from
    then tbl[tid := tbl[tid].(status := to, updateTs := now)]
    else tbl
  }

  // ----- selections -----

  datatype Selection =
    | StartTransferIn
    | ConfirmableLocked
    | TimeoutPendingIn
    | TimeoutPendingConfirm
    | TimeoutPendingRefund
    | RefundableIn

  /** The WHERE clause of each query. */
  predicate Matches(q: Selection, r: Row, now: Time) {
    match q
    case StartTransferIn =>
      r.status == InStart && r.timeLock > now + SEND_MARGIN && r.kind == TransferIn
    case ConfirmableLocked =>
      r.status == Locked && r.preimage.Some?
    case TimeoutPendingIn =>
      && r.status == InPending && r.updateTs < now - MAX_PENDING_RETRY
      && r.kind == TransferIn && r.timeLock > now + TIME_LOCK_SAFE_MARGIN
    case TimeoutPendingConfirm =>
      && r.status == ConfirmPending && r.updateTs < now - MAX_PENDING_RETRY
      && r.timeLock > now + TIME_LOCK_SAFE_MARGIN
    case TimeoutPendingRefund =>
      r.status == RefundPending && r.updateTs < now - MAX_PENDING_RETRY
    case RefundableIn =>
      r.status == Locked && r.timeLock < now && r.kind == TransferIn
  }

  ghost predicate DistinctTids(rows: seq<Row>) {
    forall i, j :: 0 <= i < j < |rows| ==> rows[i].tid != rows[j].tid
  }

  /** `rows` lists exactly the matching rows, each once, in whatever order the database returns them. */
  ghost predicate Selects(rows: seq<Row>, tbl: Table, q: Selection, now: Time) {
    && DistinctTids(rows)
    && (forall x :: x in rows ==> x.tid in tbl && tbl[x.tid] == x && Matches(q, x, now))
    && (forall t :: t in tbl && Matches(q, tbl[t], now) ==> tbl[t] in rows)
  }

  /** `rows` is the whole table, each row once. */
  ghost predicate Lists(rows: seq<Row>, tbl: Table) {
    && DistinctTids(rows)
    && (forall x :: x in rows ==> x.tid in tbl && tbl[x.tid] == x)
    && (forall t :: t in tbl ==> tbl[t] in rows)
  }

  /** The data-access layer over the shared table. */
  class DAL {
    var table: Table

    /** Rows are filed under their own id: the column is the primary key. */
    ghost predicate Keyed()
      reads this
    {
      forall t :: t in table ==> table[t].tid == t
    }

    constructor ()
      ensures table == map[] && Keyed()
    {
      table := map[];
    }

    method InsertTransfer(r: Row, now: Time)
      requires Keyed()
      modifies this
      ensures Keyed()
      ensures table == Inserted(old(table), r, now)
    {
      if r.tid !in table {
        table := table[r.tid := r.(preimage := None, updateTs := now, createTs := now)];
      }
    }

    method SetRelatedTxPreimage(p: Preimage, rel: Tid)
      requires Keyed()
      modifies this
      ensures Keyed()
      ensures table == RelatedPreimageSet(old(table), p, rel)
    {
      var done: Table := map[];
      var left := table.Keys;
      while left != {}
        invariant left <= table.Keys && table == old(table)
        invariant done == map t | t in table && t !in left ::
                            if table[t].relTid == rel then table[t].(preimage := Some(p)) else table[t]
        decreases left
      {
        var t :| t in left;
        left := left - {t};
        done := done[t := if table[t].relTid == rel then table[t].(preimage := Some(p)) else table[t]];
      }
      table := done;
    }

    method ConfirmTransfer(tid: Tid, p: Preimage)
      requires Keyed()
      modifies this
      ensures Keyed()
      ensures table == ConfirmedIn(old(table), tid, p)
    {
      if tid in table {
        table := table[tid := table[tid].(status := Confirmed, preimage := Some(p))];
      }
    }

    method RefundTransfer(tid: Tid)
      requires Keyed()
      modifies this
      ensures Keyed()
      ensures table == StatusSet(old(table), tid, Refunded)
    {
      UpdateTransferStatus(tid, Refunded);
    }

    method UpdateTransferStatus(tid: Tid, to: Status)
      requires Keyed()
      modifies this
      ensures Keyed()
      ensures table == StatusSet(old(table), tid, to)
    {
      if tid in table {
        table := table[tid := table[tid].(status := to)];
      }
    }

    method RecordTransferIn(tid: Tid)
      requires Keyed()
      modifies this
      ensures Keyed()
      ensures table == InRecorded(old(table), tid)
    {
      if tid in table && (table[tid].status == InStart || table[tid].status == InPending) {
        table := table[tid := table[tid].(status := Locked)];
      }
    }

    method SetTransferInAmountAndFee(tid: Tid, amount: int, fee: int)
      requires Keyed()
      modifies this
      ensures Keyed()
      ensures table == AmountAndFeeSet(old(table), tid, amount, fee)
    {
      if tid in table {
        table := table[tid := table[tid].(amount := amount, fee := fee)];
      }
    }

    method SetTransferStatusByFrom(tid: Tid, to: Status, from: Status, now: Time)
      requires Keyed()
      modifies this
      ensures Keyed()
      ensures table == StatusSwapped(old(table), tid, to, from, now)
    {
      if tid in table && table[tid].status == from {
        table := table[tid := table[tid].(status := to, updateTs := now)];
      }
    }

    method GetTransferByTid(tid: Tid) returns (r: Option<Row>)
      ensures r == if tid in table then Some(table[tid]) else None
    {
      r := None;
      if tid in table {
        r := Some(table[tid]);
      }
    }

    /** The shape all the list queries share: scan the result set row by row and append. */
    method Select(q: Selection, now: Time) returns (rows: seq<Row>)
      requires Keyed()
      ensures Selects(rows, table, q, now)
    {
      rows := [];
      var left := table.Keys;
      while left != {}
        invariant left <= table.Keys
        invariant DistinctTids(rows)
        invariant forall x :: x in rows ==>
                    x.tid in table && x.tid !in left && table[x.tid] == x && Matches(q, x, now)
        invariant forall t :: t in table && t !in left && Matches(q, table[t], now) ==> table[t] in rows
        decreases left
      {
        var t :| t in left;
        left := left - {t};
        if Matches(q, table[t], now) {
          ghost var before := rows;
          rows := rows + [table[t]];
          assert forall x :: x in rows ==> x in before || x == table[t];
        }
      }
    }

    method GetAllTransfers() returns (rows: seq<Row>)
      requires Keyed()
      ensures Lists(rows, table)
    {
      rows := [];
      var left := table.Keys;
      while left != {}
        invariant left <= table.Keys
        invariant DistinctTids(rows)
        invariant forall x :: x in rows ==> x.tid in table && x.tid !in left && table[x.tid] == x
        invariant forall t :: t in table && t !in left ==> table[t] in rows
        decreases left
      {
        var t :| t in left;
        left := left - {t};
        ghost var before := rows;
        rows := rows + [table[t]];
        assert forall x :: x in rows ==> x in before || x == table[t];
      }
    }
  }
}
