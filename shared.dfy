/** A shared scalar slot, `Arc<Mutex<Option<f64>>>`: the latest reading of one source, or none. */
module Shared {
  import opened Wrappers

  class Slot {
    var value: Option<real>

    /** `Arc::new(Mutex::new(None))`. */
    constructor ()
      ensures value == None
    {
      value := None;
    }
  }
}
