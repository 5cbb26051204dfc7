/** What a validator's `validate` call produces. */
module Outcomes {

  datatype Option<+T> = None | Some(value: T)

  /**
   * `validate` either returns None (`Accept`) or raises
   * `ValidationError(message, code=..., params=...)` (`Reject`). A rule that
   * passes no `code` has `code == None`; one that passes no `params` has the
   * empty map.
   */
  datatype Outcome = Accept | Reject(message: string, code: Option<string>, params: map<string, int>)

  /** The reason code every counting rule attaches to its rejections. */
  const TOO_WEAK: string := "password_too_weak"
}
