/** What the engine can learn from a call to another process. */
module Common {
  datatype Option<+T> = None | Some(value: T)

  /** The error classes the engine tells apart. Other stands for every other HTTP status and for
      transport errors. */
  datatype Code = Unauthorized | Forbidden | NotFound | Other

  /** How the environment treats one call. Answer: it is performed and its true result comes back.
      Refuse: it is not performed and an error comes back. LostAnswer: it is performed but the caller
      sees an error. */
  datatype Reply = Answer | Refuse(code: Code) | LostAnswer

  /** What the caller sees. Crash: the process stops before the call is made. */
  datatype Status = Ok | Err(code: Code) | Crash
}
