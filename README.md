# prysm configuration core, modelled in Dafny

This project models the configuration core of prysm (`prysm/conf.py`):

- **Unit tokens.** A unit token is either a unit or a string. The strings `waves`, `wave` and `λ`, in any case, stand for the reference wavelength. Any other name is looked up in the unit registry.
- **Unit rendering.** A unit or a quantity is rendered in a notation. Any other value is rejected.
- **Labels.** A `Labels` template builds the x, y, z and generic axis labels. It attaches the axis qualifier to the base on the configured side. It appends the bracketed unit only when units are shown, but always appends the unit joiner.
- **Config.** The configuration object has a validated precision and a validated Zernike base. It also has a backend whose setter notifies a list of observers.

Modules and files:

- `wrappers.dfy` (`Wrappers`): `Option`, `Result`, `Outcome` and the error kinds.
- `text.dfy` (`Text`): the host language's `str.lower` and `str.join`, with lemmas about them.
- `units.dfy` (`Units`): `sanitize_unit` and `format_unit`.
- `labelling.dfy` (`Labelling`): the `Labels` class, as a value.
- `configuration.dfy` (`Configuration`): the `Config` class, as a Dafny class.

Parameters used in place of outside state:

- `Unit` and `Backend` are opaque types of which nothing but equality is used.
- The unit registry is a `map<string, Unit>`.
- A unit's rendering of itself is a function parameter `render`. Rendering is assumed total: the unit system's rejection of an unknown notation is not modelled.
- The label functions read `show_units` and `unit_format` from the global configuration in the source. Here they take them as parameters `showUnits` and `fmt`.

Behaviour kept as the code has it:

- **The backend is never stored.** The backend setter loops over the observers and passes each one `self._backend`. No line anywhere assigns `_backend`. So on a freshly built configuration, with at least one observer registered, the setter fails with a missing attribute before the first observer is called. Two registered observers are both called, first to last, with the held backend only once that backend has been assigned by other means. `Configuration.TwoObservers` proves both cases.
- **Hidden units still need a renderable unit.** A label whose unit is hidden still calls `format_unit`. So it still fails on a value that is neither a unit nor a quantity.
- **`generic` ignores the flag.** It does not consult the display flag and always shows the unit.

## Model

| member | source | states |
|---|---|---|
| `Units.Sanitize` | prysm/conf.py:13-37 | a unit token comes back unchanged whatever the wavelength; a name whose lower-case form is `waves`, `wave` or `λ` resolves to exactly the wavelength; any other name resolves to the registry entry under its original spelling, and fails with an unresolved-name error exactly when the registry lacks it |
| `Units.WaveAliasIff` | prysm/conf.py:30 | a name is a wavelength alias if and only if it spells `waves`, `wave` or `λ` up to the case of each letter |
| `Units.CapitalAliasesResolveToWavelength` | prysm/conf.py:30-31 | `WAVES`, `Wave` and `Λ` resolve to the wavelength whatever the registry holds |
| `Units.SanitizeIdempotent` | prysm/conf.py:29-36 | resolving the unit that a token resolved to gives the same unit back, under any wavelength and registry |
| `Units.FormatUnit` | prysm/conf.py:40-61 | rendering succeeds exactly for units and quantities; a unit renders itself, a quantity renders its unit, and anything else fails with the "must be a Unit or Quantity instance." argument error |
| `Units.QuantityFormatsAsItsUnit` | prysm/conf.py:56-59 | a quantity renders exactly as its own unit does |
| `Text.Lower` | prysm/conf.py:30 | lower-cases ASCII and Greek capitals character by character, keeping the length; this gives the same outcome as the source's `str.lower` for the alias test here and the side test at line 120, since no other character lower-cases to a letter those tests compare against |
| `Text.Join` | prysm/conf.py:125 | joins a list with a separator as `str.join` does: an empty list gives the empty string, and otherwise the result starts with the first part; `Text.JoinTwo` and `Text.JoinThree` give the two- and three-part cases in full (also used at lines 134 and 137) |
| `Text.LowerEqIff` | prysm/conf.py:30 | comparing a string's lower-case form with a lower-case string is comparing the two letter by letter ignoring case |
| `Text.JoinTwo` | prysm/conf.py:137 | joining two strings with a separator places the separator once between them |
| `Text.JoinThree` | prysm/conf.py:134-136 | joining three strings with a separator places it between each neighbouring pair |
| `Labelling.LabelFactory` | prysm/conf.py:100-138 | building the piece list with a front insert or an append and joining it gives the label specification: x uses qualifier 0 and y qualifier 1, placed before the base exactly when the side is "left" or "l" in any case; other labels use the z text and z unit; the result is the stem, the unit joiner and the unit text, with a missing qualifier or an unrenderable unit raised |
| `Labelling.X` | prysm/conf.py:140-142 | the x label is the factory's "x" label |
| `Labelling.Y` | prysm/conf.py:144-146 | the y label is the factory's "y" label |
| `Labelling.Z` | prysm/conf.py:148-150 | the z label is the factory's "z" label |
| `Labelling.Generic` | prysm/conf.py:152-159 | the generic label fails exactly when the in-plane unit is neither a unit nor a quantity |
| `Labelling.AttachesLeftIff` | prysm/conf.py:120 | the qualifier goes first if and only if the side spells "left" or "l" up to case |
| `Labelling.HiddenUnitsKeepTrailingJoiner` | prysm/conf.py:131-137 | with units hidden a label is its stem followed by the unit joiner, it fails exactly when the stem or the unit rendering fails, and it is the same for every rendering function |
| `Labelling.ShownUnitsBracketed` | prysm/conf.py:131-137 | with units shown a label is the stem, the unit joiner, the prefix, the rendered unit and the suffix |
| `Labelling.ShowUnitsOnlyAppends` | prysm/conf.py:131-137 | the display flag never changes whether a label fails, and a shown label is the hidden one extended by prefix, unit and suffix |
| `Labelling.UnrenderableUnitFails` | prysm/conf.py:126-129 | a label whose unit is neither a unit nor a quantity fails whether or not units are shown |
| `Labelling.YIsXWithQualifiersSwapped` | prysm/conf.py:114-123 | with two qualifiers, the y label equals the x label of the template with its qualifiers swapped |
| `Labelling.OtherLabelsAreZ` | prysm/conf.py:127-129 | any label other than "x" and "y" is the z label and depends on neither the in-plane base, qualifiers, side, joiner nor the in-plane unit |
| `Labelling.PlanarLabelsIgnoreZ` | prysm/conf.py:114-126 | the x and y labels depend on neither the z text nor the z unit |
| `Labelling.GenericIsShownBaseLabel` | prysm/conf.py:152-159 | the generic label is the shown z label of the template with the base as z text and the in-plane unit as z unit, and ignores qualifiers, side, addition joiner, z text and z unit |
| `Labelling.PupilXLabel` | prysm/conf.py:176 | for the shipped pupil labels the x label is "Pupil ξ [unit]", "Pupil ξ " with units hidden, and the z label is "OPD [unit]" |
| `Configuration.Config.constructor` | prysm/conf.py:254-255 | a new object starts with no observers, not initialised, and no property set |
| `Configuration.Config.New` | prysm/conf.py:186-283 | with the source's defaults (precision 64, Zernike base 1, notation "latex_inline", units shown), construction succeeds exactly for precision 32 or 64 and Zernike base 0 or 1, raising the precision error first; on success the object is initialised and valid, with no observers, no stored backend, the chosen data types and base, and the given display settings |
| `Configuration.Config.Precision` | prysm/conf.py:285-295 | the precision getter yields a real data type once set and fails with a missing attribute before |
| `Configuration.Config.PrecisionComplex` | prysm/conf.py:297-307 | the complex data type is set together with the real one and has its width |
| `Configuration.Config.HeldBackend` | prysm/conf.py:334-337 | the backend getter yields the held backend and fails with a missing attribute while none is held |
| `Configuration.Config.ZernikeBase` | prysm/conf.py:357-367 | the Zernike base getter yields 0 or 1 once set |
| `Configuration.Config.SetPrecision` | prysm/conf.py:309-332 | 32 sets (float32, complex64), 64 sets (float64, complex128); any other value raises the precision error and leaves both types unchanged; nothing else is modified |
| `Configuration.Config.SetZernikeBase` | prysm/conf.py:369-387 | only 0 and 1 are stored; any other value raises the Zernike error and leaves the base unchanged; nothing else is modified |
| `Configuration.Config.SetBackend` | prysm/conf.py:339-355 | each observer is called exactly once, in list order, with the backend held before the call; the new backend is unused and no field changes; with observers registered and no backend held it fails before any call |
| `Configuration.TwoObservers` | prysm/conf.py:339-355 | on a freshly built configuration two registered observers make the setter fail; once a backend is held they are called first to last with it |

## Left out

- `copy` (prysm/conf.py:161-163): a `Labels` is an immutable value here. A copy is the value itself, and changing a field of the copy is a record update that leaves the original as it was.
- Direct assignment to a `Labels` field is a record update, not a change in place.
- The module defaults (prysm/conf.py:166-181, 390) are plain data: the unit dictionaries, the default label templates and the global `config` instance. Only the pupil labels are built, as `Labelling.PupilLabels`.
- The unit system's rendering (`to_string`), `def_unit` and unit arithmetic are foreign library calls. Rendering is the uninterpreted `render` parameter.
- Units.FormatUnit, Labelling.Generic and Labelling.HiddenUnitsKeepTrailingJoiner: rendering is assumed total, so these fail only on a value that is neither a unit nor a quantity. The unit system also rejects a notation it does not know, and `unit_format` is not validated; that failure is not modelled.
- Configuration.Config.New, Configuration.Config.SetPrecision and Configuration.Config.SetZernikeBase: only integer arguments are modelled. The source tests membership with `==`, so it also accepts values such as 32.0, 64.0, 1.0 or `True`, and stores the base as given.
- Configuration.Config.New: the backend has no default, because the source's default is the numpy module, an opaque handle here. The other modelled arguments keep the source's defaults.
- `Units.Sanitize`: only unit and string tokens are modelled. A value of any other type has no `lower` method in the source and fails there. Registry attributes that are not units are not distinguished either.
- `Text.Lower` lower-cases ASCII and Greek capitals only. No other character lower-cases to a letter that the alias or side tests compare against, so those tests behave as in the source.
- The plain `Config` fields are unvalidated assignments and are not modelled: the colour maps, `lw`, `zorder`, `alpha`, `interpolation`, `Q`, `wavelength` and the per-domain units and labels. `New` keeps only `unit_format` and `show_units`, because the label code reads them.
- Data types are the enumeration `DType`, not numpy objects.
- Observers are identifiers. A call is recorded as a `Notification`, and what an observer does when called is not modelled. An observer that raised would stop the loop in the source.
- When the constructor raises, the source drops the partly initialised object. `New` returns the error and no object.
- Process-wide sharing of the single instance and the lack of locking are not modelled.
- `prysm/interferogram.py` is not part of this model. It is floating-point array processing, plotting and file reading.
