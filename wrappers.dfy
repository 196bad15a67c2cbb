/** The optional value used wherever the site keeps a value that may be absent
    (`selectedLead` may be null, a record's `bookedAt` may be undefined). */
module Wrappers {

  datatype Option<+T> = None | Some(value: T)
}
