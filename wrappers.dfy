/** The optional value used for the tester's nullable fields and inputs. */
module Wrappers {

  datatype Option<T> = None | Some(value: T)
}
