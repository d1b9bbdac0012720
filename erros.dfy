/** internal/erros: the four sentinel errors of the pipeline. `errors.Is`
    matches them by identity, which here is constructor equality. */
module Erros {

  datatype Sentinel = ErrInvalidZipCode | ErrZipCodeNotFound | ErrCityIsRequired | ErrCityNotFound
  {
    /** The text given to `errors.New` for each sentinel. */
    function Message(): (m: string)
      ensures m != []
    {
      match this
      case ErrInvalidZipCode => "invalid zipcode"
      case ErrZipCodeNotFound => "can not find zipcode"
      case ErrCityIsRequired => "city is required"
      case ErrCityNotFound => "can not find city"
    }
  }

  /** The messages tell the sentinels apart: two sentinels with the same text
      are the same sentinel. */
  lemma MessageIdentifiesSentinel(a: Sentinel, b: Sentinel)
    ensures a.Message() == b.Message() <==> a == b
  {
    if a != b {
      assert a.Message()[0] != b.Message()[0] || a.Message()[|a.Message()| - 1] != b.Message()[|b.Message()| - 1]
        || |a.Message()| != |b.Message()|;
    }
  }
}
