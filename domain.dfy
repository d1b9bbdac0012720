/** internal/domain: the two value objects of the pipeline, each built by a
    smart constructor that either returns the value or a sentinel error. Their
    fields are set at construction and never changed; a datatype value cannot
    change either. */
module Domain {
  import opened Outcomes
  import opened Erros
  import opened Helpers

  /** A postal code (CEP) holding its normalised digits. */
  datatype Cep = Cep(codigo: string)
  {
    /** The stored code; the value is immutable, so it is the code given at
        construction. */
    function Codigo(): (c: string)
      ensures Valid() ==> AllDigits(c) && 2 <= |c| <= 8
    {
      codigo
    }

    /** Invariant of every `Cep` that `NewCep` returns: only digit runes,
        8 bytes long. */
    predicate Valid() {
      AllDigits(codigo) && ByteLen(codigo) == 8
    }
  }

  /** `NewCep` normalises the raw code, then validates the normalised one. */
  function NewCep(codigo: string): (r: Result<Cep, Sentinel>)
    ensures r.Ok? <==> ValidateZipCode(codigo)
    ensures r.Ok? ==> r.value.Codigo() == NormalizeZipCode(codigo) && r.value.Valid()
    ensures r.Err? ==> r.error == ErrInvalidZipCode
  {
    ValidateIgnoresNormalization(codigo);
    var cep := Cep(NormalizeZipCode(codigo));
    if !ValidateZipCode(cep.codigo) then Err(ErrInvalidZipCode) else Ok(cep)
  }

  /** A constructed postal code is accepted again, unchanged, by `NewCep`. */
  lemma {:induction false} NewCepIdempotent(codigo: string)
    requires NewCep(codigo).Ok?
    ensures NewCep(NewCep(codigo).value.Codigo()) == NewCep(codigo)
  {
    NormalizeIdempotent(codigo);
  }

  /** A city name (localidade). */
  datatype Localidade = Localidade(name: string)
  {
    function Name(): (n: string)
      ensures Valida() ==> n != []
    {
      name
    }

    /** `valida`: Go's `len(name) > 0`, a byte count; it holds for every
        non-empty name, blanks included. */
    predicate Valida()
      ensures Valida() <==> name != []
    {
      ByteLen(name) > 0
    }
  }

  /** `NewLocalidade` keeps the name as given, without trimming, and fails only
      on the empty name: a name of blanks is accepted. */
  function NewLocalidade(name: string): (r: Result<Localidade, Sentinel>)
    ensures r.Err? <==> name == []
    ensures r.Err? ==> r.error == ErrCityIsRequired
    ensures r.Ok? ==> r.value.Name() == name && r.value.Valida()
  {
    var localidade := Localidade(name);
    if !localidade.Valida() then Err(ErrCityIsRequired) else Ok(localidade)
  }
}
