/** The optional values of the extension: a message field that may be absent, a secret that may
    not be stored, a manifest without a usable `name`. */
module Wrappers {

  datatype Option<+T> = None | Some(value: T)

  /** JavaScript truthiness of an optional string: present and not empty. */
  predicate Truthy(o: Option<string>) {
    o.Some? && o.value != ""
  }
}
