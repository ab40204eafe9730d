/**
 * What the pages get back from their queries, and when their effect is torn down.
 *
 * Every query of the pages settles to a `{ data, error }` pair; a non-null `error`
 * is a failure carrying `error.message`. The network is not modelled: each settled
 * pair is an input of the page's `load`.
 */
module Outcomes {

  datatype Option<T> = None | Some(value: T)

  /** A settled query: `Ok(data)` when `error` is null, `Err(msg)` with the error's message otherwise. */
  datatype Res<T> = Ok(data: T) | Err(msg: string)

  /** JavaScript truthiness of a `string | null`: both `null` and `""` are falsy. */
  predicate Truthy(s: Option<string>)
  {
    s.Some? && s.value != ""
  }

  /** The awaits of one `load` run, numbered from 1. */
  type AwaitIndex = k: nat | 1 <= k witness 1

  /**
   * When the effect's cleanup (`mounted = false`) ran, if at all. Cleanup can only run while
   * `load` is suspended, so it is named by the await during which it ran.
   */
  datatype Cancel = StaysMounted | UnmountedDuring(step: AwaitIndex)

  /** The value the `if (!mounted) return;` check right after await `k` reads. */
  predicate MountedAfter(c: Cancel, k: nat)
  {
    c.StaysMounted? || k < c.step
  }

  /** `data ?? []` for a list query whose `data` may be null. */
  function OrEmpty<T>(data: Option<seq<T>>): seq<T>
  {
    match data
    case None => []
    case Some(rows) => rows
  }

  /** `n ?? 0` for a nullable numeric column. */
  function OrZero(n: Option<int>): int
  {
    match n
    case None => 0
    case Some(v) => v
  }
}
