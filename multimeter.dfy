/**
  SCPI command builder for a Keysight 34401A digital multimeter:
  `MEAS:VOLT:DC?` (measure DC voltage, a query) and `CONF:CURR:AC`
  (configure AC current). Each command takes a `range` and a `resolution`,
  each a keyword (`MIN`, `MAX`, `DEF`) or a positive number. A command is
  validated once, when it is built, and renders to one line of text.

  The text of a number (Python's `str` on an `int` or `float`) is code this
  model does not see: every member that renders takes it as the parameter
  `numText`.
 */
module Multimeter {
  import opened PyStr

  datatype Result<T, E> = Success(value: T) | Failure(error: E) {
    predicate IsFailure() { Failure? }

    function PropagateFailure<U>(): Result<U, E>
      requires Failure?
    {
      Failure(error)
    }

    function Extract(): T
      requires Success?
    {
      value
    }
  }

  /** The keyword sentinels for the instrument's minimum, maximum and default value. */
  datatype Keyword = MIN | MAX | DEF {
    function Name(): string {
      match this
      case MIN => "MIN"
      case MAX => "MAX"
      case DEF => "DEF"
    }
  }

  /** The keyword strings a parameter may spell, in upper case. */
  const AllowedKeywords: set<string> := {"MIN", "MAX", "DEF"}

  /** A Python number: an `int` or a `float` (NaN and infinities are not modelled). */
  datatype Number = Int(i: int) | Float(x: real) {
    function Value(): real {
      match this
      case Int(i) => i as real
      case Float(x) => x
    }
  }

  /** What a caller may pass for a parameter: a string, a number, or a value of any other type. */
  datatype Input = Str(s: string) | Numeric(n: Number) | OtherType

  /** A validated parameter: an upper-case keyword, or a number. */
  datatype Param = Kw(k: Keyword) | Num(n: Number)

  /** The two parameters of a command, named as in error messages. */
  datatype Field = Range | Resolution {
    function Name(): string {
      match this
      case Range => "range"
      case Resolution => "resolution"
    }
  }

  /** The source raises one exception type; its three messages are told apart here. */
  datatype Error =
    | InvalidKeyword(field: Field, text: string)      // a string whose upper case is no keyword
    | UnexpectedValue(field: Field, value: Input)     // a number <= 0, or another type
    | ResolutionWithoutRange                          // resolution given, range left at DEF

  /** The keyword whose name is `u`. */
  function KeywordNamed(u: string): (k: Keyword)
    requires u in AllowedKeywords
    ensures k.Name() == u
  {
    if u == "MIN" then MIN else if u == "MAX" then MAX else DEF
  }

  /** The allowed keyword strings are exactly the names of the keywords. */
  lemma AllowedAreKeywordNames(u: string)
    ensures u in AllowedKeywords <==> exists k: Keyword :: k.Name() == u
  {
    if u in AllowedKeywords {
      assert KeywordNamed(u).Name() == u;
    }
  }

  /** What a validated parameter satisfies: a number is strictly positive. */
  predicate Normalized(p: Param) {
    p.Num? ==> p.n.Value() > 0.0
  }

  /** Validate and normalise one parameter: a string must upper-case to a
      keyword and yields that keyword; a number must be positive and is kept;
      anything else fails. Errors name the field. */
  function ValidateParam(value: Input, name: Field): (r: Result<Param, Error>)
    ensures r.Success? ==> Normalized(r.value)
    ensures r.Failure? ==> !r.error.ResolutionWithoutRange? && r.error.field == name
  {
    match value
    case Str(s) =>
      var u := Upper(s);
      if u in AllowedKeywords then Success(Kw(KeywordNamed(u))) else Failure(InvalidKeyword(name, u))
    case Numeric(n) =>
      if n.Value() > 0.0 then Success(Num(n)) else Failure(UnexpectedValue(name, value))
    case OtherType =>
      Failure(UnexpectedValue(name, value))
  }

  /** A string validates exactly when its upper case is an allowed keyword,
      and then to that keyword; otherwise the error carries the upper case. */
  lemma ValidateString(s: string, name: Field)
    ensures ValidateParam(Str(s), name).Success? <==> Upper(s) in AllowedKeywords
    ensures ValidateParam(Str(s), name).Success? ==>
              ValidateParam(Str(s), name).value.Kw? && ValidateParam(Str(s), name).value.k.Name() == Upper(s)
    ensures ValidateParam(Str(s), name).Failure? ==>
              ValidateParam(Str(s), name).error == InvalidKeyword(name, Upper(s))
  {
  }

  /** Validation ignores case: two strings with the same upper case validate alike. */
  lemma ValidateIgnoresCase(s: string, t: string, name: Field)
    requires Upper(s) == Upper(t)
    ensures ValidateParam(Str(s), name) == ValidateParam(Str(t), name)
  {
  }

  /** A keyword spelled with any mix of upper- and lower-case letters
      ("min", "Min", "MIN") validates to that keyword. */
  lemma ValidateAnyCase(k: Keyword, s: string, name: Field)
    requires |s| == |k.Name()|
    requires forall i :: 0 <= i < |s| ==> s[i] == k.Name()[i] || s[i] == LowerChar(k.Name()[i])
    ensures ValidateParam(Str(s), name) == Success(Kw(k))
  {
    assert Upper(s) == k.Name() by {
      UpperOfUpperCase(k.Name());
      forall i | 0 <= i < |s| ensures Upper(s)[i] == k.Name()[i] {
        assert 'A' <= k.Name()[i] <= 'Z';
      }
    }
    assert KeywordNamed(k.Name()) == k;
  }

  /** A number validates exactly when it is strictly positive, and is kept
      unchanged; zero and negative numbers fail with the value in the error. */
  lemma ValidateNumber(n: Number, name: Field)
    ensures ValidateParam(Numeric(n), name).Success? <==> n.Value() > 0.0
    ensures ValidateParam(Numeric(n), name).Success? ==> ValidateParam(Numeric(n), name).value == Num(n)
    ensures ValidateParam(Numeric(n), name).Failure? ==>
              ValidateParam(Numeric(n), name).error == UnexpectedValue(name, Numeric(n))
  {
  }

  /** A value of any other type always fails. */
  lemma ValidateOtherType(name: Field)
    ensures ValidateParam(OtherType, name) == Failure(UnexpectedValue(name, OtherType))
  {
  }

  /** The Python value a validated parameter is stored as. */
  function AsInput(p: Param): Input {
    match p
    case Kw(k) => Str(k.Name())
    case Num(n) => Numeric(n)
  }

  /** Normalisation is idempotent: validating a validated value gives it back. */
  lemma ValidateIdempotent(p: Param, name: Field)
    requires Normalized(p)
    ensures ValidateParam(AsInput(p), name) == Success(p)
  {
    if p.Kw? {
      UpperOfUpperCase(p.k.Name());
      assert KeywordNamed(p.k.Name()) == p.k;
    }
  }

  /** The validated pair of parameters of a command. */
  datatype CommandSpec = CommandSpec(range: Param, resolution: Param)

  /** The cross-field rule: a resolution other than DEF needs a range other than DEF. */
  predicate RangeCoversResolution(range: Param, resolution: Param) {
    !(range == Kw(DEF) && resolution != Kw(DEF))
  }

  /** The invariant of every constructed command. */
  predicate ValidSpec(c: CommandSpec) {
    Normalized(c.range) && Normalized(c.resolution) && RangeCoversResolution(c.range, c.resolution)
  }

  /** Construction: validate range, then resolution, then apply the cross-field rule. */
  function Construct(range: Input, resolution: Input): (r: Result<CommandSpec, Error>)
    ensures r.Success? ==> ValidSpec(r.value)
  {
    var rg :- ValidateParam(range, Range);
    var rs :- ValidateParam(resolution, Resolution);
    if rg == Kw(DEF) && rs != Kw(DEF) then Failure(ResolutionWithoutRange)
    else Success(CommandSpec(rg, rs))
  }

  /** Construction succeeds exactly when both fields validate and the
      cross-field rule holds, and then holds the validated values. */
  lemma ConstructSucceeds(range: Input, resolution: Input)
    ensures Construct(range, resolution).Success? <==>
              && ValidateParam(range, Range).Success?
              && ValidateParam(resolution, Resolution).Success?
              && RangeCoversResolution(ValidateParam(range, Range).value, ValidateParam(resolution, Resolution).value)
    ensures Construct(range, resolution).Success? ==>
              Construct(range, resolution).value ==
                CommandSpec(ValidateParam(range, Range).value, ValidateParam(resolution, Resolution).value)
  {
  }

  /** Errors come in source order: a bad range first, then a bad resolution,
      and the cross-field error exactly when both fields are well formed,
      range is DEF and resolution is not. */
  lemma ConstructErrorOrder(range: Input, resolution: Input)
    ensures ValidateParam(range, Range).Failure? ==>
              Construct(range, resolution) == Failure(ValidateParam(range, Range).error)
    ensures ValidateParam(range, Range).Success? && ValidateParam(resolution, Resolution).Failure? ==>
              Construct(range, resolution) == Failure(ValidateParam(resolution, Resolution).error)
    ensures Construct(range, resolution) == Failure(ResolutionWithoutRange) <==>
              && ValidateParam(range, Range) == Success(Kw(DEF))
              && ValidateParam(resolution, Resolution).Success?
              && ValidateParam(resolution, Resolution).value != Kw(DEF)
  {
  }

  /** Every valid command is built from the Python values it stores. */
  lemma ConstructComplete(c: CommandSpec)
    requires ValidSpec(c)
    ensures Construct(AsInput(c.range), AsInput(c.resolution)) == Success(c)
  {
    ValidateIdempotent(c.range, Range);
    ValidateIdempotent(c.resolution, Resolution);
  }

  /** The text of one parameter (`str` of the stored value): a keyword's
      name, or the number's text. A keyword's text is an allowed keyword
      string that names the same keyword again. */
  function ParamText(p: Param, numText: Number -> string): (t: string)
    ensures p.Kw? ==> t in AllowedKeywords && KeywordNamed(t) == p.k
  {
    match p
    case Kw(k) => k.Name()
    case Num(n) => numText(n)
  }

  /** The text of a keyword holds no separator: no ',', no '/', no space. */
  lemma KeywordTextPlain(k: Keyword)
    ensures ',' !in k.Name() && '/' !in k.Name() && ' ' !in k.Name()
  {
  }

  /** The text of a keyword reads back as that keyword: it is an allowed
      keyword string, and validating it gives the keyword again. */
  lemma KeywordTextReadBack(k: Keyword, name: Field)
    ensures k.Name() in AllowedKeywords
    ensures ValidateParam(Str(k.Name()), name) == Success(Kw(k))
  {
    ValidateIdempotent(Kw(k), name);
  }

  /** A number's text, if the parameter is a number, avoids the character `ch`. */
  predicate NumberTextAvoids(p: Param, numText: Number -> string, ch: char) {
    p.Num? ==> ch !in numText(p.n)
  }

  /** Neither prefix contains '/'. */
  lemma PrefixesSlashFree()
    ensures '/' !in MeasureVoltageDCBase && '/' !in ConfigCurrentACBase
  {
  }

  /** The arguments a command carries: the texts of its non-DEF fields, range first. */
  function Arguments(c: CommandSpec, numText: Number -> string): (args: seq<string>)
    ensures |args| == (if c.range != Kw(DEF) then 1 else 0) + (if c.resolution != Kw(DEF) then 1 else 0)
    ensures c.range != Kw(DEF) ==> args[0] == ParamText(c.range, numText)
    ensures c.resolution != Kw(DEF) ==> args[|args| - 1] == ParamText(c.resolution, numText)
  {
    (if c.range != Kw(DEF) then [ParamText(c.range, numText)] else [])
      + (if c.resolution != Kw(DEF) then [ParamText(c.resolution, numText)] else [])
  }

  /** The command text: the bare prefix when both fields are DEF, otherwise
      the prefix, one space and the arguments separated by commas. */
  function Render(base: string, c: CommandSpec, numText: Number -> string): (cmd: string)
    ensures cmd == base <==> c.range == Kw(DEF) && c.resolution == Kw(DEF)
    ensures |base| <= |cmd| && cmd[..|base|] == base
  {
    if c.range == Kw(DEF) && c.resolution == Kw(DEF) then base
    else base + " " + Join(Arguments(c, numText), ",")
  }

  /** The exact text for each combination of DEF and non-DEF fields. */
  lemma RenderCases(base: string, c: CommandSpec, numText: Number -> string)
    ensures c.range != Kw(DEF) && c.resolution != Kw(DEF) ==>
              Render(base, c, numText) == base + " " + ParamText(c.range, numText) + "," + ParamText(c.resolution, numText)
    ensures c.range != Kw(DEF) && c.resolution == Kw(DEF) ==>
              Render(base, c, numText) == base + " " + ParamText(c.range, numText)
    ensures c.range == Kw(DEF) && c.resolution != Kw(DEF) ==>
              Render(base, c, numText) == base + " " + ParamText(c.resolution, numText)
  {
    if c.range != Kw(DEF) && c.resolution != Kw(DEF) {
      var args := Arguments(c, numText);
      assert args[1..] == [ParamText(c.resolution, numText)];
    }
  }

  /** For a valid command, a non-bare text always starts its arguments with
      the range, and never consists of the prefix and the resolution alone. */
  lemma ValidRenderRangeFirst(base: string, c: CommandSpec, numText: Number -> string)
    requires ValidSpec(c)
    requires Render(base, c, numText) != base
    ensures c.range != Kw(DEF)
    ensures Render(base, c, numText) ==
              base + " " + ParamText(c.range, numText) +
              (if c.resolution == Kw(DEF) then "" else "," + ParamText(c.resolution, numText))
    ensures c.resolution != Kw(DEF) ==> Render(base, c, numText) != base + " " + ParamText(c.resolution, numText)
  {
    RenderCases(base, c, numText);
    if c.resolution == Kw(DEF) {
      assert base + " " + ParamText(c.range, numText) + "" == base + " " + ParamText(c.range, numText);
    } else {
      var produced := Render(base, c, numText);
      assert |produced| > |base + " " + ParamText(c.resolution, numText)|;
    }
  }

  /** The arguments can be read back from the text by splitting at commas,
      when no argument text has a comma in it. */
  lemma RenderReadBack(base: string, c: CommandSpec, numText: Number -> string)
    requires c.range != Kw(DEF) || c.resolution != Kw(DEF)
    requires NumberTextAvoids(c.range, numText, ',') && NumberTextAvoids(c.resolution, numText, ',')
    ensures Split(Render(base, c, numText)[|base| + 1..], ',') == Arguments(c, numText)
  {
    if c.range.Kw? { KeywordTextPlain(c.range.k); }
    if c.resolution.Kw? { KeywordTextPlain(c.resolution.k); }
    var args := Arguments(c, numText);
    var cmd := Render(base, c, numText);
    assert cmd[|base| + 1..] == Join(args, ",");
    SplitJoin(args, ',');
  }

  /** No '/' in the prefix or in a number's text means none in the command. */
  lemma RenderSlashFree(base: string, c: CommandSpec, numText: Number -> string)
    requires '/' !in base
    requires NumberTextAvoids(c.range, numText, '/') && NumberTextAvoids(c.resolution, numText, '/')
    ensures '/' !in Render(base, c, numText)
  {
    if c.range.Kw? { KeywordTextPlain(c.range.k); }
    if c.resolution.Kw? { KeywordTextPlain(c.resolution.k); }
    RenderCases(base, c, numText);
  }

  const MeasureVoltageDCBase: string := "MEAS:VOLT:DC?"
  const ConfigCurrentACBase: string := "CONF:CURR:AC"

  /** The two commands differ only in their prefix: what follows it is the same text. */
  lemma VariantsDifferOnlyInPrefix(c: CommandSpec, numText: Number -> string)
    ensures MeasureVoltageDCBase != ConfigCurrentACBase
    ensures Render(MeasureVoltageDCBase, c, numText)[|MeasureVoltageDCBase|..] ==
            Render(ConfigCurrentACBase, c, numText)[|ConfigCurrentACBase|..]
  {
    assert MeasureVoltageDCBase[12] != ConfigCurrentACBase[11];
  }

  /** A built command: the prefix of its variant and its two validated
      fields, fixed once built. */
  class ScpiCommand {
    const base: string
    const range: Param
    const resolution: Param

    ghost predicate Valid() {
      ValidSpec(Spec())
    }

    function Spec(): CommandSpec {
      CommandSpec(range, resolution)
    }

    /** Only validated values are stored: no object breaks the invariant. */
    constructor (base: string, range: Param, resolution: Param)
      requires ValidSpec(CommandSpec(range, resolution))
      ensures this.base == base && this.range == range && this.resolution == resolution
      ensures Valid()
    {
      this.base := base;
      this.range := range;
      this.resolution := resolution;
    }

    /** Build a command with the given prefix: validate range, then
        resolution, then apply the cross-field rule; no object exists when
        any step fails. */
    static method Create(base: string, range: Input, resolution: Input) returns (r: Result<ScpiCommand, Error>)
      ensures r.Success? <==> Construct(range, resolution).Success?
      ensures r.Success? ==>
                && fresh(r.value) && r.value.base == base
                && r.value.Spec() == Construct(range, resolution).value && r.value.Valid()
      ensures r.Failure? ==> r.error == Construct(range, resolution).error
    {
      var rg := ValidateParam(range, Range);
      if rg.Failure? {
        return Failure(rg.error);
      }
      var rs := ValidateParam(resolution, Resolution);
      if rs.Failure? {
        return Failure(rs.error);
      }
      if rg.value == Kw(DEF) && rs.value != Kw(DEF) {
        return Failure(ResolutionWithoutRange);
      }
      var c := new ScpiCommand(base, rg.value, rs.value);
      return Success(c);
    }

    /** MEAS:VOLT:DC?, both fields defaulting to "DEF". */
    static method MeasureVoltageDC(range: Input := Str("DEF"), resolution: Input := Str("DEF"))
      returns (r: Result<ScpiCommand, Error>)
      ensures r.Success? <==> Construct(range, resolution).Success?
      ensures r.Success? ==>
                && fresh(r.value) && r.value.base == MeasureVoltageDCBase
                && r.value.Spec() == Construct(range, resolution).value && r.value.Valid()
      ensures r.Failure? ==> r.error == Construct(range, resolution).error
    {
      r := Create(MeasureVoltageDCBase, range, resolution);
    }

    /** CONF:CURR:AC, both fields defaulting to "DEF". */
    static method ConfigCurrentAC(range: Input := Str("DEF"), resolution: Input := Str("DEF"))
      returns (r: Result<ScpiCommand, Error>)
      ensures r.Success? <==> Construct(range, resolution).Success?
      ensures r.Success? ==>
                && fresh(r.value) && r.value.base == ConfigCurrentACBase
                && r.value.Spec() == Construct(range, resolution).value && r.value.Valid()
      ensures r.Failure? ==> r.error == Construct(range, resolution).error
    {
      r := Create(ConfigCurrentACBase, range, resolution);
    }

    /** The command text, built as the source builds it: the non-DEF field
        texts collected in order, joined with '/', and every '/' of the whole
        line then replaced by ','. The bare prefix is returned as it is; any
        other text is the rendered text with its '/' replaced, so exactly the
        rendered text when it has no '/'. As every built command keeps the
        cross-field rule, a range of DEF gives the bare prefix and any longer
        text lists the range first. */
    method Command(numText: Number -> string) returns (cmd: string)
      requires Valid()
      ensures Render(base, Spec(), numText) == base ==> cmd == base
      ensures Render(base, Spec(), numText) != base ==> cmd == ReplaceChar(Render(base, Spec(), numText), '/', ',')
      ensures '/' !in Render(base, Spec(), numText) ==> cmd == Render(base, Spec(), numText)
      ensures range == Kw(DEF) ==> cmd == base
      ensures range != Kw(DEF) ==>
                cmd == ReplaceChar(base + " " + ParamText(range, numText) +
                                   (if resolution == Kw(DEF) then "" else "," + ParamText(resolution, numText)), '/', ',')
      ensures '/' !in base && NumberTextAvoids(range, numText, '/') && NumberTextAvoids(resolution, numText, '/') ==>
                cmd == Render(base, Spec(), numText)
    {
      if range == Kw(DEF) && resolution == Kw(DEF) {
        return base;
      }
      var parts: seq<string> := [];
      if range != Kw(DEF) {
        parts := parts + [ParamText(range, numText)];
      }
      if resolution != Kw(DEF) {
        parts := parts + [ParamText(resolution, numText)];
      }
      assert parts == Arguments(Spec(), numText);
      cmd := ReplaceChar(base + " " + Join(parts, "/"), '/', ',');
      ReplaceConcat(base + " ", Join(parts, "/"), '/', ',');
      ReplaceConcat(base + " ", Join(parts, ","), '/', ',');
      ReplaceJoin(parts, "/", '/', ',');
      ReplaceJoin(parts, ",", '/', ',');
      ReplaceIdentityWithoutSlash(Render(base, Spec(), numText));
      ValidRenderRangeFirst(base, Spec(), numText);
      if '/' !in base && NumberTextAvoids(range, numText, '/') && NumberTextAvoids(resolution, numText, '/') {
        RenderSlashFree(base, Spec(), numText);
      }
    }
  }

  /** Replacing '/' by ',' is the identity on a text with no '/'. */
  lemma ReplaceIdentityWithoutSlash(s: string)
    ensures '/' !in s ==> ReplaceChar(s, '/', ',') == s
  {
    if '/' !in s {
      ReplaceAbsent(s, '/', ',');
    }
  }

  /** `MeasureVoltageDC()` renders as the bare query. */
  lemma ExampleDefaultQuery(numText: Number -> string)
    ensures Construct(Str("DEF"), Str("DEF")) == Success(CommandSpec(Kw(DEF), Kw(DEF)))
    ensures Render(MeasureVoltageDCBase, CommandSpec(Kw(DEF), Kw(DEF)), numText) == "MEAS:VOLT:DC?"
  {
    ValidateIdempotent(Kw(DEF), Range);
    ValidateIdempotent(Kw(DEF), Resolution);
  }

  /** `MeasureVoltageDC(range=10.0, resolution=0.001)` renders as
      "MEAS:VOLT:DC? 10.0,0.001" when the numbers print as written. */
  lemma ExampleNumericQuery(numText: Number -> string)
    requires numText(Float(10.0)) == "10.0" && numText(Float(0.001)) == "0.001"
    ensures Construct(Numeric(Float(10.0)), Numeric(Float(0.001))) ==
              Success(CommandSpec(Num(Float(10.0)), Num(Float(0.001))))
    ensures Render(MeasureVoltageDCBase, CommandSpec(Num(Float(10.0)), Num(Float(0.001))), numText) ==
              "MEAS:VOLT:DC? 10.0,0.001"
  {
    RenderCases(MeasureVoltageDCBase, CommandSpec(Num(Float(10.0)), Num(Float(0.001))), numText);
  }

  /** `ConfigCurrentAC(range="min", resolution="max")` renders as "CONF:CURR:AC MIN,MAX". */
  lemma ExampleKeywordConfig(numText: Number -> string)
    ensures Construct(Str("min"), Str("max")) == Success(CommandSpec(Kw(MIN), Kw(MAX)))
    ensures Render(ConfigCurrentACBase, CommandSpec(Kw(MIN), Kw(MAX)), numText) == "CONF:CURR:AC MIN,MAX"
  {
    ValidateAnyCase(MIN, "min", Range);
    ValidateAnyCase(MAX, "max", Resolution);
    RenderCases(ConfigCurrentACBase, CommandSpec(Kw(MIN), Kw(MAX)), numText);
  }

  /** `MeasureVoltageDC(resolution=0.001)` fails on the cross-field rule. */
  lemma ExampleResolutionWithoutRange()
    ensures Construct(Str("DEF"), Numeric(Float(0.001))) == Failure(ResolutionWithoutRange)
  {
    ValidateIdempotent(Kw(DEF), Range);
  }
}
