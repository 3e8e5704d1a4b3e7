/** Sequences of inputs to the projected tables: logs, and merchants linked by another application. */
module Feed {
  import opened Prelude
  import opened Chain
  import opened Ledger
  import opened Projection

  datatype Input =
    | Logged(lg: Log, time: int)
    | Linked(merchant: MerchantId, onchainId: int)

  /** An outside write of `onchainMerchantId`; the unique index and the row's own id restrict it. */
  function LinkOutside(rows: Rows, m: MerchantId, onchainId: int): Rows {
    if m in rows.merchants && onchainId !in rows.links && FreeFor(rows, m, onchainId)
    then rows.(links := rows.links[onchainId := m]) else rows
  }

  /** An unresolvable log leaves the tables alone; a fatal one stops the feed. */
  function Absorb(cfg: Config, rows: Rows, x: Input): Option<Rows> {
    match x
    case Linked(m, id) => Some(LinkOutside(rows, m, id))
    case Logged(lg, time) =>
      match Apply(cfg, rows, lg, time)
      case Written(r) => Some(r)
      case Unresolvable(_) => Some(rows)
      case Fatal(_) => None
  }

  function AbsorbAll(cfg: Config, rows: Rows, xs: seq<Input>): Option<Rows> {
    if xs == [] then Some(rows)
    else
      match AbsorbAll(cfg, rows, xs[..|xs| - 1])
      case None => None
      case Some(r) => Absorb(cfg, r, xs[|xs| - 1])
  }

  lemma {:induction false} AbsorbConcat(cfg: Config, rows: Rows, xs: seq<Input>, ys: seq<Input>)
    ensures AbsorbAll(cfg, rows, xs + ys) ==
            match AbsorbAll(cfg, rows, xs) case None => None case Some(r) => AbsorbAll(cfg, r, ys)
  {
    if ys == [] {
      assert xs + ys == xs;
    } else {
      assert (xs + ys)[..|xs + ys| - 1] == xs + ys[..|ys| - 1];
      AbsorbConcat(cfg, rows, xs, ys[..|ys| - 1]);
    }
  }
}
