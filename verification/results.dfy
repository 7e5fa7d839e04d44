/** Failure-carrying values shared by every module of the model: Go's `nil`
    pointers become `Option`, and Go's `(value, err)` pairs become `Result`. */
module Results {

  datatype Option<+T> = None | Some(value: T)

  datatype Result<+T, +E> = Success(value: T) | Failure(error: E)
}
