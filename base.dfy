/** Failure-carrying values shared by every module of the model. */
module Base {

  datatype Option<+T> = None | Some(value: T)

  /** What a callback receives as its `err` argument. */
  datatype Error =
    | StoreError(key: string)          // the sorted-set store failed on this key
    | SettingsError                    // meta.settings.get failed
    | SendError(uid: string)           // emailer.send failed for this recipient
    | ReferenceError(name: string)     // a JavaScript global that does not exist was called

  /** A node-style callback outcome: `callback(err)` or `callback(null, value)`. */
  datatype Result<+T> = Ok(value: T) | Err(error: Error)
}
