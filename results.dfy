/** Success/failure wrappers shared by the host model, the error model and
    the validator: `Result` stands for Rust's `PyResult` / `ValResult`, and
    `Option` for Rust's `Option`. */
module Results {

  datatype Option<+T> = None | Some(value: T)

  datatype Result<+T, +E> = Ok(value: T) | Err(error: E)
}
