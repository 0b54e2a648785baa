/** Shared vocabulary of the chain engine: links, weight maps and the error-carrying result types. */
module Types {

  /** A state (window) is an ordered sequence of exactly N tokens; N is carried by the store. */
  type State<T> = seq<T>

  /** Per-state successor counts.  Every stored weight is at least 1 (see Store.WellFormed). */
  type WeightMap<T> = map<T, nat>

  /** One observed transition: the window `from` was followed by the token `to`. */
  datatype Link<T> = Link(from: State<T>, to: T)

  datatype Option<+T> = None | Some(value: T)

  /** The errors the core distinguishes.  `StorageError` carries the store's own reason uninterpreted;
      `NoData` is the context message attached when there is nothing to generate from; `StepLimit`
      is the model's bound on an unbounded walk (the source would keep walking). */
  datatype Error = StorageError(reason: string) | NoData(message: string) | StepLimit

  datatype Result<+R> = Ok(value: R) | Err(error: Error)
}
