/** An optional value: the model's counterpart of a C pointer that may be NULL. */
module Optional {
  datatype Option<+T> = None | Some(value: T)
  {
    predicate IsSome() { Some? }

    function GetOr(default: T): (r: T)
      ensures Some? ==> r == value
      ensures None? ==> r == default
    {
      match this
      case Some(v) => v
      case None => default
    }
  }
}
