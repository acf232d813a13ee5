/**
 * The subscriber email type of `crate::domain`. Its parser and validation rules are
 * not part of this model: the email client only ever reads the address back through
 * `as_ref`, so the type is an opaque wrapper around the address string.
 */
module Domain {

  datatype SubscriberEmail = SubscriberEmail(address: string) {
    /** `AsRef<str>` on `SubscriberEmail`. */
    function AsRef(): string { address }
  }
}
