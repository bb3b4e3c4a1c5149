/** Small shared vocabulary: an optional value (Java's nullable references). */
module Common {

  /** `None` stands for a Java or JavaScript `null`. */
  datatype Option<T> = None | Some(value: T) {
    function GetOr(default: T): T {
      if Some? then value else default
    }
  }

  function Min(a: int, b: int): (m: int)
    ensures m <= a && m <= b && (m == a || m == b)
  {
    if a <= b then a else b
  }
}
