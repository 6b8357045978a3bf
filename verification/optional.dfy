/** A value that may be absent: SQL NULL, a Python `None`, or a lookup that found nothing. */
module Optional {

  datatype Option<+T> = None | Some(value: T) {

    /** SQL `coalesce(this, fallback)`: the value when present, the fallback for NULL. */
    function Coalesce(fallback: T): T {
      if Some? then value else fallback
    }
  }
}
