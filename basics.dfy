/** Values shared by every part of the profile routes model. */
module Basics {

  /** A request-body or document field that may be absent (`undefined` in the source). */
  datatype Option<+T> = None | Some(value: T)

  /** The identifier the authentication middleware puts in `req.user.id`, and a User's `_id`. */
  type UserId = string

  /** The `id` Mongoose gives an embedded experience or education record when it is saved. */
  type RecordId = string

  /** The identifier of a Post document. */
  type PostId = string

  /** JavaScript truthiness of a string-valued request field: present and not "". */
  predicate Truthy(v: Option<string>) {
    v.Some? && |v.value| > 0
  }
}
