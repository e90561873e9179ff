# SCPI command builder for the Keysight 34401A multimeter

This project models the small SCPI (Standard Commands for Programmable
Instruments) command builder in `xperiments/Multimeter/multimeter.py`. The
builder produces the text of two commands for a Keysight 34401A digital
multimeter. One is the `MEAS:VOLT:DC?` query, the other the `CONF:CURR:AC`
configuration. Each command has two parameters, `range` and `resolution`.

- **Parameters.** Each parameter is either a keyword sentinel (`MIN`, `MAX`,
  `DEF`, accepted in any case and normalised to upper case) or a strictly
  positive `int` or `float`. Anything else is rejected, and the error names the
  field (`ValidateParam`).
- **Construction.** Construction validates `range` first, then `resolution`.
  It then rejects a non-`DEF` resolution whose range is `DEF` (`Construct`).
  A built command keeps both normalised values and this cross-field rule
  (`ValidSpec`).
- **Rendering.** A command renders as the bare prefix when both fields are
  `DEF`. Otherwise it renders as the prefix, one space, and the non-`DEF`
  field texts joined by commas, range first (`Render`).

The two Python dataclasses differ only in their prefix. They become one class,
`Multimeter.ScpiCommand`, with one factory per command
(`MeasureVoltageDC`, `ConfigCurrentAC`). Both factories share `Create`, which
follows `__post_init__` step by step. The constructor accepts only values
that already meet the invariant, so no object can break it, just as no Python
instance outlives a failing `__post_init__`. The class's `Command` method follows
`command()` step by step. It collects the parts, joins them with `/`, and
replaces every `/` in the whole line by `,`. The method is proved against the
comma-joined `Render`.

Module `PyStr` models the Python string built-ins the source calls:
- `str.upper` (`Upper`);
- `str.join` (`Join`);
- one-character `str.replace` (`ReplaceChar`).

It also has `str.split` (`Split`), as the inverse of the join.

Python's `str()` on a number is outside this model. Every member that renders
takes it as a parameter `numText: Number -> string`. `Number` keeps `int`
and `float` apart, so `numText` may print `10` and `10.0` differently.

## Model

| member | source | states |
|---|---|---|
| `PyStr.Upper` | xperiments/Multimeter/multimeter.py:28 | upper-casing keeps the length and maps every ASCII lower-case letter to its upper-case letter, leaving other characters unchanged |
| `PyStr.Join` | xperiments/Multimeter/multimeter.py:80 | joining no parts gives the empty string, and joining one part gives that part |
| `PyStr.ReplaceChar` | xperiments/Multimeter/multimeter.py:80 | the result has the same length, and every occurrence of the old character, and only those, becomes the new character |
| `PyStr.ReplaceJoin` | xperiments/Multimeter/multimeter.py:80 | replacing a character in a joined string is the same as joining the replaced parts with the replaced separator |
| `PyStr.SplitJoin` | xperiments/Multimeter/multimeter.py:80 | splitting at `c` gives back exactly the joined parts, when none of them contains `c` |
| `Multimeter.KeywordNamed` | xperiments/Multimeter/multimeter.py:5 | every allowed keyword string is the name of one keyword |
| `Multimeter.AllowedAreKeywordNames` | xperiments/Multimeter/multimeter.py:5 | a string is in `ALLOWED_KEYWORDS` iff it is the name of `MIN`, `MAX` or `DEF` |
| `Multimeter.ValidateParam` | xperiments/Multimeter/multimeter.py:11-35 | a successful result is normalised: a keyword, or a number > 0. A failure is a per-field error that names the field being validated |
| `Multimeter.ValidateString` | xperiments/Multimeter/multimeter.py:26-31 | a string validates iff its upper case is in {MIN, MAX, DEF}, and then to the keyword with that name. Otherwise the error carries the field and the upper-cased text |
| `Multimeter.ValidateIgnoresCase` | xperiments/Multimeter/multimeter.py:28-29 | two strings with the same upper case give the same validation outcome |
| `Multimeter.ValidateAnyCase` | xperiments/Multimeter/multimeter.py:26-31 | a keyword spelled with any mix of upper- and lower-case letters ("min", "Min", "MIN") validates to that keyword |
| `Multimeter.ValidateNumber` | xperiments/Multimeter/multimeter.py:32-35 | a number validates iff it is strictly greater than 0, and is then returned unchanged. Zero and negative numbers fail with the field and the value |
| `Multimeter.ValidateOtherType` | xperiments/Multimeter/multimeter.py:34-35 | a value that is neither a string nor a number always fails with the field and the value |
| `Multimeter.ValidateIdempotent` | xperiments/Multimeter/multimeter.py:26-35 | storing a validated value as the Python value it becomes (`AsInput`: a keyword's upper-case name, or the number) and validating that again gives the same value back, so normalisation is idempotent |
| `Multimeter.Construct` | xperiments/Multimeter/multimeter.py:53-63 | every successful construction holds normalised fields and satisfies the cross-field rule |
| `Multimeter.ConstructSucceeds` | xperiments/Multimeter/multimeter.py:53-63 | construction succeeds iff both fields validate and the cross-field rule holds. It then holds exactly the two validated values |
| `Multimeter.ConstructErrorOrder` | xperiments/Multimeter/multimeter.py:54-58 | a bad range is reported first, then a bad resolution. The cross-field error arises iff range validates to DEF and resolution validates to something else |
| `Multimeter.ConstructComplete` | xperiments/Multimeter/multimeter.py:53-63 | every command spec that satisfies the invariant is what construction yields from its own stored values |
| `Multimeter.ParamText` | xperiments/Multimeter/multimeter.py:76-79 | the text of a keyword field (`str` of the stored keyword) is an allowed keyword string that names the same keyword again |
| `Multimeter.KeywordTextPlain` | xperiments/Multimeter/multimeter.py:77 | the name of every keyword contains no `,`, no `/` and no space |
| `Multimeter.KeywordTextReadBack` | xperiments/Multimeter/multimeter.py:77 | the name of every keyword is an allowed keyword string, and validating it gives the same keyword back |
| `Multimeter.PrefixesSlashFree` | xperiments/Multimeter/multimeter.py:72 | neither `MEAS:VOLT:DC?` nor `CONF:CURR:AC` contains `/` |
| `Multimeter.Arguments` | xperiments/Multimeter/multimeter.py:75-79 | one argument per non-DEF field, the range's first and the resolution's last |
| `Multimeter.Render` | xperiments/Multimeter/multimeter.py:65-80 | the text is exactly the prefix iff both fields are DEF, and it always starts with the prefix |
| `Multimeter.RenderCases` | xperiments/Multimeter/multimeter.py:72-80 | the exact text for each mix of DEF and non-DEF fields: `prefix range,resolution`, `prefix range`, or `prefix resolution` |
| `Multimeter.ValidRenderRangeFirst` | xperiments/Multimeter/multimeter.py:57-80 | for a valid command, a non-bare text has a non-DEF range, is `prefix range` or `prefix range,resolution`, and is never the prefix with the resolution alone |
| `Multimeter.RenderReadBack` | xperiments/Multimeter/multimeter.py:80 | splitting the text after the prefix and space at commas gives back the argument list, when no number's text contains a comma. Keyword texts never do |
| `Multimeter.RenderSlashFree` | xperiments/Multimeter/multimeter.py:80 | with no `/` in the prefix or in either number's text, the rendered text has no `/`. Keyword texts never contain one |
| `Multimeter.VariantsDifferOnlyInPrefix` | xperiments/Multimeter/multimeter.py:117-125 | the two prefixes differ, and what follows the prefix is the same text for both commands |
| `Multimeter.ScpiCommand.constructor` | xperiments/Multimeter/multimeter.py:50-63 | accepts only values that are normalised and meet the cross-field rule, stores them with the prefix, and establishes the invariant |
| `Multimeter.ScpiCommand.Create` | xperiments/Multimeter/multimeter.py:53-63 | succeeds iff `Construct` does, with the same error. On success it returns a fresh object with the given prefix, holding the constructed values and satisfying the invariant |
| `Multimeter.ScpiCommand.MeasureVoltageDC` | xperiments/Multimeter/multimeter.py:38-63 | as `Create` with prefix `MEAS:VOLT:DC?`, both fields defaulting to "DEF" |
| `Multimeter.ScpiCommand.ConfigCurrentAC` | xperiments/Multimeter/multimeter.py:83-108 | as `Create` with prefix `CONF:CURR:AC`, both fields defaulting to "DEF" |
| `Multimeter.ScpiCommand.Command` | xperiments/Multimeter/multimeter.py:65-80 | on a valid command: the bare prefix is returned unchanged, which happens exactly when range is DEF. Any other text is `prefix range` or `prefix range,resolution` with every `/` replaced by `,`. That text equals `Render` when the prefix and the number texts have no `/` |
| `Multimeter.ExampleDefaultQuery` | xperiments/Multimeter/multimeter.py:72-74 | `MeasureVoltageDC()` builds with both fields DEF and renders as `MEAS:VOLT:DC?` |
| `Multimeter.ExampleNumericQuery` | xperiments/Multimeter/multimeter.py:131 | range 10.0 and resolution 0.001 build and render as `MEAS:VOLT:DC? 10.0,0.001` when the numbers print as `10.0` and `0.001` |
| `Multimeter.ExampleKeywordConfig` | xperiments/Multimeter/multimeter.py:135 | `ConfigCurrentAC(range="min", resolution="max")` builds as MIN, MAX and renders as `CONF:CURR:AC MIN,MAX` |
| `Multimeter.ExampleResolutionWithoutRange` | xperiments/Multimeter/multimeter.py:140 | `MeasureVoltageDC(resolution=0.001)` fails with the cross-field error |

## Left out

- Python's `str()` on numbers is the parameter `numText`. The model does not decide float formatting (`10` versus `10.0`, exponent notation).
- `Multimeter.ScpiCommand.Command` is proved equal to `Render` when neither the prefix nor a number's text contains `/`. `PrefixesSlashFree` proves this for both prefixes, and `KeywordTextPlain` for every keyword. For numbers it rests on the fact that `str()` of a Python number never prints `/`, which the model does not prove.
- `PyStr.Upper`: only ASCII letters are upper-cased. Python's `str.upper` is Unicode-aware: it maps the dotless `ı` to `I`, so Python also accepts `"mın"`, and it lengthens some strings (`ß` becomes `SS`). No other keyword spelling depends on this.
- NaN and the infinities of `float` are not modelled (`Number` holds a real). Python rejects NaN and accepts `inf`, because `inf > 0`.
- `bool` counts as an `int` in Python, so `True` passes as the number 1. The model treats a `bool` argument as `OtherType`, which is rejected.
- Positive numbers of other numeric types (`Fraction`, `Decimal`) match neither `int` nor `float` in the source and are rejected. The model covers them as `OtherType`.
- `__post_init__` overwrites the raw fields in place, one at a time, before the cross-field check. The model validates first and allocates only on success. In Python the half-updated object is never observable, because the exception escapes the constructor.
- Reassigning fields after construction, which the non-frozen dataclass allows and which bypasses validation, is not modelled. The fields are `const`.
- The wording of the `ValueError` messages is not kept. Only which message, the field and the offending value are.
- The `__main__` demonstration (printing) and `tasks.py`, `Chapters/unused_examples/safe_call.py` and `Chapters/unused_examples/capture.py` are not part of this model. They are task wiring, console I/O and exception-catching wrappers around foreign calls.
- Sending the command to an instrument is not modelled: the source has no transport.
