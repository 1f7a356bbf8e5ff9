/** Small datatypes shared by every component of the model. */
module Common {

  /** Python's `None` or a value. */
  datatype Option<+T> = None | Some(value: T)

  /** The settlement rails of `finance/types.py`. */
  datatype Vault = Mpesa | Cash | Bank
}
