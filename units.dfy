/** Unit tokens and their rendering: `sanitize_unit` and `format_unit` of
    prysm/conf.py. Units themselves belong to an external unit system, so
    `Unit` is an opaque type, the registry of named units is a map, and a
    unit's own rendering in a notation is a function passed in by the
    caller (`Renderer`), which is assumed total: the unit system's
    rejection of an unknown notation is not modelled. */
module Units {
  import opened Wrappers
  import opened Text

  /** A physical unit of the external unit system; only equality is used. */
  type Unit(==)

  /** A number together with its unit. Only the unit matters here. */
  datatype Quantity = Quantity(magnitude: real, unit: Unit)

  /** What `sanitize_unit` accepts: a unit already, or the name of one. */
  datatype Token = UnitToken(unit: Unit) | NameToken(name: string)

  /** What `format_unit` may be handed: a unit, a quantity, or any other
      value (a number, a string, ...), which it rejects. */
  datatype Value = UnitValue(unit: Unit) | QuantityValue(quantity: Quantity) | OtherValue

  /** The unit system's names, as found by attribute lookup on its module. */
  type Registry = map<string, Unit>

  /** A unit's rendering of itself in a notation such as "latex" or "unicode". */
  type Renderer = (Unit, string) -> string

  const WaveAliases: set<string> := {"waves", "wave", "λ"}

  const FormatMessage := "must be a Unit or Quantity instance."

  /** The names that stand for the current reference wavelength. */
  predicate IsWaveAlias(name: string) {
    Lower(name) in WaveAliases
  }

  /** Resolve a unit token against the reference wavelength and the registry. */
  function Sanitize(token: Token, wavelength: Unit, registry: Registry): (r: Result<Unit>)
    ensures token.UnitToken? ==> r == Ok(token.unit)
    ensures token.NameToken? && IsWaveAlias(token.name) ==> r == Ok(wavelength)
    ensures token.NameToken? && !IsWaveAlias(token.name) ==>
      (r.Ok? <==> token.name in registry) &&
      (r.Ok? ==> r.value == registry[token.name]) &&
      (r.Err? ==> r.error == UnresolvedUnitName(token.name))
  {
    match token
    case UnitToken(u) => Ok(u)
    case NameToken(name) =>
      if IsWaveAlias(name) then Ok(wavelength)
      else if name in registry then Ok(registry[name])
      else Err(UnresolvedUnitName(name))
  }

  /** Render a unit, or the unit of a quantity; reject anything else. */
  function FormatUnit(value: Value, fmt: string, render: Renderer): (r: Result<string>)
    ensures r.Ok? <==> !value.OtherValue?
    ensures value.UnitValue? ==> r.value == render(value.unit, fmt)
    ensures value.QuantityValue? ==> r.value == render(value.quantity.unit, fmt)
    ensures value.OtherValue? ==> r.error == InvalidArgument(FormatMessage)
  {
    match value
    case UnitValue(u) => Ok(render(u, fmt))
    case QuantityValue(q) => Ok(render(q.unit, fmt))
    case OtherValue => Err(InvalidArgument(FormatMessage))
  }

  /** A name is a wavelength alias exactly when, ignoring the case of its
      letters, it spells `waves`, `wave` or `λ`. */
  lemma WaveAliasIff(name: string)
    ensures IsWaveAlias(name) <==>
      FoldsTo(name, "waves") || FoldsTo(name, "wave") || FoldsTo(name, "λ")
  {
    assert IsLowerCase("waves") && IsLowerCase("wave") && IsLowerCase("λ");
    LowerEqIff(name, "waves");
    LowerEqIff(name, "wave");
    LowerEqIff(name, "λ");
  }

  /** Upper-case and mixed-case spellings of the aliases resolve to the
      reference wavelength too, whatever the registry holds. */
  lemma CapitalAliasesResolveToWavelength(wavelength: Unit, registry: Registry)
    ensures Sanitize(NameToken("WAVES"), wavelength, registry) == Ok(wavelength)
    ensures Sanitize(NameToken("Wave"), wavelength, registry) == Ok(wavelength)
    ensures Sanitize(NameToken("Λ"), wavelength, registry) == Ok(wavelength)
  {
    WaveAliasIff("WAVES");
    WaveAliasIff("Wave");
    WaveAliasIff("Λ");
  }

  /** A corollary of the pass-through case of `Sanitize`. Resolution is
      idempotent: resolving the unit a token resolved to gives that unit
      back, for any other wavelength and registry. */
  lemma SanitizeIdempotent(token: Token, wavelength: Unit, registry: Registry,
                           wavelength': Unit, registry': Registry)
    requires Sanitize(token, wavelength, registry).Ok?
    ensures Sanitize(UnitToken(Sanitize(token, wavelength, registry).value), wavelength', registry')
            == Sanitize(token, wavelength, registry)
  {
  }

  /** A corollary of the unit and quantity cases of `FormatUnit`: a quantity
      renders exactly as its unit does. */
  lemma QuantityFormatsAsItsUnit(q: Quantity, fmt: string, render: Renderer)
    ensures FormatUnit(QuantityValue(q), fmt, render) == FormatUnit(UnitValue(q.unit), fmt, render)
  {
  }
}
