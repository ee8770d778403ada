/** The strategy DSL: parsing raw JSON into typed clauses, evaluating them, and printing them back. */
module StrategyDsl {
  import opened Common

  /** JSON values; `None` and the missing value are `JNull`. Numbers are reals. */
  datatype Json =
    | JNull | JBool(b: bool) | JNum(n: real) | JStr(s: string)
    | JList(items: seq<Json>) | JObj(fields: map<string, Json>)

  /** `ParseFailed` is the documented error; `Crashed` is a TypeError and `Overflowed` an OverflowError
      that escapes the parser. */
  datatype Failure = ParseFailed | Crashed | Overflowed

  datatype Result<+T> = Ok(value: T) | Err(failure: Failure)

  datatype FieldType = StringArray | StringField | NumberField | BoolField

  datatype Clause = Clause(field: string, op: string, value: Json, weight: real)

  datatype Definition = Definition(require: seq<Clause>, prefer: seq<Clause>)

  datatype Section = Require | Prefer

  const EMPTY := Definition([], [])

  function FieldTypeOf(field: string): Option<FieldType> {
    if field == "tags" then Some(StringArray)
    else if field == "name" then Some(StringField)
    else if field == "enabled" then Some(BoolField)
    else if field in {"weight", "last_latency_ms", "latency_ema_ms", "requests_today", "requests_this_minute",
                      "rpd_remaining", "rpm_remaining", "total_failures"} then Some(NumberField)
    else None
  }

  function OpsOf(t: FieldType): set<string> {
    match t
    case StringArray => {"contains"}
    case StringField => {"==", "!=", "in"}
    case NumberField => {"==", "!=", "<", "<=", ">", ">="}
    case BoolField => {"==", "!="}
  }

  // ---------- parser ----------

  /** `_validate_value_type`. */
  predicate ValueFits(t: FieldType, op: string, value: Json) {
    if op == "in" then
      value.JList? && value.items != [] && forall v | v in value.items ::
        (t.StringField? ==> v.JStr?) && (t.NumberField? ==> v.JNum? || v.JBool?)
    else if op == "contains" then value.JStr?
    else
      match t
      case StringField => value.JStr?
      case NumberField => value.JNum?
      case BoolField => value.JBool?
      case StringArray => true
  }

  /** `float(x)`: a value, a rejected input (TypeError or ValueError), or an OverflowError. */
  datatype Float = IsFloat(value: real) | NotAFloat | TooLarge

  /** What `float` makes of strings, and which numbers (integers, that is) are too large for it. */
  datatype FloatRules = FloatRules(ofString: string -> Option<real>, tooLarge: real -> bool)

  /** What `float` returns is a float, and `float` of a float never overflows. */
  ghost predicate Coherent(rules: FloatRules) {
    && !rules.tooLarge(0.0) && !rules.tooLarge(1.0)
    && forall s | rules.ofString(s).Some? :: !rules.tooLarge(rules.ofString(s).value)
  }

  function ToFloat(x: Json, rules: FloatRules): Float {
    match x
    case JNum(n) => if rules.tooLarge(n) then TooLarge else IsFloat(n)
    case JBool(b) => IsFloat(if b then 1.0 else 0.0)
    case JStr(s) => if rules.ofString(s).Some? then IsFloat(rules.ofString(s).value) else NotAFloat
    case _ => NotAFloat
  }

  function ParseClause(raw: Json, section: Section, rules: FloatRules): Result<Clause> {
    if !raw.JObj? || !(raw.fields.Keys <= {"field", "op", "value", "weight"}) then Err(ParseFailed)
    else
      var f := raw.fields;
      if "field" !in f || "op" !in f || "value" !in f then Err(ParseFailed)
      else if !f["field"].JStr? || FieldTypeOf(f["field"].s).None? then Err(ParseFailed)
      else
        var t := FieldTypeOf(f["field"].s).value;
        if !f["op"].JStr? || f["op"].s !in OpsOf(t) || !ValueFits(t, f["op"].s, f["value"]) then Err(ParseFailed)
        else if section.Require? then
          if "weight" in f then Err(ParseFailed)
          else Ok(Clause(f["field"].s, f["op"].s, f["value"], 0.0))
        else if "weight" !in f then Err(ParseFailed)
        else
          match ToFloat(f["weight"], rules)
          case IsFloat(weight) => Ok(Clause(f["field"].s, f["op"].s, f["value"], weight))
          case NotAFloat => Err(ParseFailed)
          case TooLarge => Err(Overflowed)
  }

  /** The clauses of a section in order; the first failure wins. */
  function ParseClauses(raws: seq<Json>, section: Section, rules: FloatRules): Result<seq<Clause>> {
    if raws == [] then Ok([])
    else
      match ParseClause(raws[0], section, rules)
      case Err(e) => Err(e)
      case Ok(c) =>
        match ParseClauses(raws[1..], section, rules)
        case Err(e) => Err(e)
        case Ok(cs) => Ok([c] + cs)
  }

  predicate Falsy(x: Json) {
    x == JNull || x == JBool(false) || x == JNum(0.0) || x == JStr("") || x == JList([]) || x == JObj(map[])
  }

  /** `raw.get(name) or []`. */
  function SectionOf(fields: map<string, Json>, name: string): Json {
    if name in fields && !Falsy(fields[name]) then fields[name] else JList([])
  }

  /** Iterating a section: a list gives its items; a non-empty string or object gives strings, none
      of which is a clause; a number or `true` cannot be iterated. */
  function ParseSection(raw: Json, section: Section, rules: FloatRules): Result<seq<Clause>> {
    match raw
    case JList(items) => ParseClauses(items, section, rules)
    case JStr(_) => Err(ParseFailed)
    case JObj(_) => Err(ParseFailed)
    case _ => Err(Crashed)
  }

  function ParseDefinition(raw: Json, rules: FloatRules): Result<Definition> {
    if raw.JNull? then Ok(EMPTY)
    else if !raw.JObj? || !(raw.fields.Keys <= {"require", "prefer"}) then Err(ParseFailed)
    else
      match ParseSection(SectionOf(raw.fields, "require"), Require, rules)
      case Err(e) => Err(e)
      case Ok(require) =>
        match ParseSection(SectionOf(raw.fields, "prefer"), Prefer, rules)
        case Err(e) => Err(e)
        case Ok(prefer) => Ok(Definition(require, prefer))
  }

  // ---------- what the parser accepts ----------

  /** The typing discipline of one clause. */
  predicate WellTyped(c: Clause) {
    var t := FieldTypeOf(c.field);
    t.Some? && c.op in OpsOf(t.value) && ValueFits(t.value, c.op, c.value)
  }

  ghost predicate WellTypedDefinition(d: Definition) {
    && (forall c | c in d.require :: WellTyped(c) && c.weight == 0.0)
    && (forall c | c in d.prefer :: WellTyped(c))
  }

  /** Every weight is a float. */
  ghost predicate FloatWeights(d: Definition, rules: FloatRules) {
    forall c | c in d.prefer :: !rules.tooLarge(c.weight)
  }

  lemma {:induction false} ClausesSound(raws: seq<Json>, section: Section, rules: FloatRules)
    requires ParseClauses(raws, section, rules).Ok? && Coherent(rules)
    ensures var cs := ParseClauses(raws, section, rules).value;
      |cs| == |raws| && forall c | c in cs ::
        WellTyped(c) && !rules.tooLarge(c.weight) && (section.Require? ==> c.weight == 0.0)
    decreases |raws|
  {
    hide ParseClause, WellTyped;
    if raws != [] {
      ClauseSound(raws[0], section, rules);
      ClausesSound(raws[1..], section, rules);
    }
  }

  lemma ClauseSound(raw: Json, section: Section, rules: FloatRules)
    requires Coherent(rules)
    ensures var r := ParseClause(raw, section, rules);
      r.Ok? ==> WellTyped(r.value) && !rules.tooLarge(r.value.weight) && (section.Require? ==> r.value.weight == 0.0)
  {
  }

  /** Every definition the parser accepts is well typed. */
  lemma ParseSound(raw: Json, rules: FloatRules)
    requires ParseDefinition(raw, rules).Ok? && Coherent(rules)
    ensures WellTypedDefinition(ParseDefinition(raw, rules).value)
    ensures FloatWeights(ParseDefinition(raw, rules).value, rules)
  {
    if raw.JObj? {
      var require, prefer := SectionOf(raw.fields, "require"), SectionOf(raw.fields, "prefer");
      ClausesSound(require.items, Require, rules);
      ClausesSound(prefer.items, Prefer, rules);
    }
  }

  // ---------- the promise of a ParseError ----------

  predicate NotIterable(x: Json) {
    (x.JNum? && x.n != 0.0) || x == JBool(true)
  }

  lemma {:induction false} ClausesNeverCrash(raws: seq<Json>, section: Section, rules: FloatRules)
    ensures ParseClauses(raws, section, rules) != Err(Crashed)
    decreases |raws|
  {
    if raws != [] {
      ClausesNeverCrash(raws[1..], section, rules);
    }
  }

  /** The parser's promise is a ParseError for every bad definition. A TypeError escapes it exactly when
      a section that the parser gets to is a nonzero number or `true`. */
  lemma CrashesIff(raw: Json, rules: FloatRules)
    ensures ParseDefinition(raw, rules) == Err(Crashed) <==>
      && raw.JObj? && raw.fields.Keys <= {"require", "prefer"}
      && (|| ("require" in raw.fields && NotIterable(raw.fields["require"]))
          || (ParseSection(SectionOf(raw.fields, "require"), Require, rules).Ok?
              && "prefer" in raw.fields && NotIterable(raw.fields["prefer"])))
  {
    hide ParseClauses;
    if raw.JObj? {
      var require, prefer := SectionOf(raw.fields, "require"), SectionOf(raw.fields, "prefer");
      if require.JList? { ClausesNeverCrash(require.items, Require, rules); }
      if prefer.JList? { ClausesNeverCrash(prefer.items, Prefer, rules); }
    }
  }

  /** The input: a `require` that is the number 1. */
  lemma NumberSectionCrashes(rules: FloatRules)
    ensures ParseDefinition(JObj(map["require" := JNum(1.0)]), rules) == Err(Crashed)
  {
    var raw := JObj(map["require" := JNum(1.0)]);
    assert raw.fields.Keys == {"require"};
    CrashesIff(raw, rules);
  }

  /** A prefer clause that is fine but for a weight too large to be a float: with weight 0 it parses. */
  predicate HugeWeight(raw: Json, rules: FloatRules) {
    && raw.JObj? && "weight" in raw.fields && raw.fields["weight"].JNum? && rules.tooLarge(raw.fields["weight"].n)
    && ParseClause(JObj(raw.fields["weight" := JNum(0.0)]), Prefer, rules).Ok?
  }

  lemma ClauseOverflowsIff(raw: Json, section: Section, rules: FloatRules)
    requires Coherent(rules)
    ensures ParseClause(raw, section, rules) == Err(Overflowed) <==> section.Prefer? && HugeWeight(raw, rules)
  {
    if raw.JObj? && "weight" in raw.fields {
      assert raw.fields["weight" := JNum(0.0)].Keys == raw.fields.Keys;
    }
  }

  /** Clause `k` is the first that does not parse, and it overflows. */
  predicate OverflowsAt(raws: seq<Json>, k: nat, rules: FloatRules) {
    k < |raws| && HugeWeight(raws[k], rules) && forall i | 0 <= i < k :: ParseClause(raws[i], Prefer, rules).Ok?
  }

  lemma {:induction false} ClausesOverflowIff(raws: seq<Json>, section: Section, rules: FloatRules)
    requires Coherent(rules)
    ensures ParseClauses(raws, section, rules) == Err(Overflowed) <==>
      section.Prefer? && exists k: nat :: OverflowsAt(raws, k, rules)
    decreases |raws|
  {
    hide ParseClause, HugeWeight;
    if raws != [] {
      ClauseOverflowsIff(raws[0], section, rules);
      ClausesOverflowIff(raws[1..], section, rules);
      if section.Prefer? {
        forall k: nat ensures OverflowsAt(raws, k + 1, rules)
          <==> ParseClause(raws[0], Prefer, rules).Ok? && OverflowsAt(raws[1..], k, rules)
        {
          OverflowsLater(raws, k, rules);
        }
        if k: nat :| OverflowsAt(raws, k, rules) {
          if k > 0 {
            assert OverflowsAt(raws[1..], k - 1, rules);
          }
        }
        assert OverflowsAt(raws, 0, rules) <==> HugeWeight(raws[0], rules);
      }
    }
  }

  lemma OverflowsLater(raws: seq<Json>, k: nat, rules: FloatRules)
    requires raws != []
    ensures OverflowsAt(raws, k + 1, rules)
      <==> ParseClause(raws[0], Prefer, rules).Ok? && OverflowsAt(raws[1..], k, rules)
  {
    hide ParseClause, HugeWeight;
    if OverflowsAt(raws, k + 1, rules) {
      assert forall i | 0 <= i < k :: raws[1..][i] == raws[i + 1];
    }
    if ParseClause(raws[0], Prefer, rules).Ok? && OverflowsAt(raws[1..], k, rules) {
      forall i | 0 <= i < k + 1 ensures ParseClause(raws[i], Prefer, rules).Ok? {
        assert i > 0 ==> raws[i] == raws[1..][i - 1];
      }
    }
  }

  /** An OverflowError escapes it exactly when everything up to some prefer clause parses and that
      clause has a weight too large to be a float. */
  lemma OverflowsIff(raw: Json, rules: FloatRules)
    requires Coherent(rules)
    ensures ParseDefinition(raw, rules) == Err(Overflowed) <==>
      && raw.JObj? && raw.fields.Keys <= {"require", "prefer"}
      && ParseSection(SectionOf(raw.fields, "require"), Require, rules).Ok?
      && SectionOf(raw.fields, "prefer").JList?
      && exists k: nat :: OverflowsAt(SectionOf(raw.fields, "prefer").items, k, rules)
  {
    hide ParseClauses, OverflowsAt;
    if raw.JObj? {
      var require, prefer := SectionOf(raw.fields, "require"), SectionOf(raw.fields, "prefer");
      if require.JList? { ClausesOverflowIff(require.items, Require, rules); }
      if prefer.JList? { ClausesOverflowIff(prefer.items, Prefer, rules); }
    }
  }

  /** The input: one prefer clause on the name with a weight too large to be a float. */
  lemma HugeWeightOverflows(huge: real, rules: FloatRules)
    requires rules.tooLarge(huge)
    ensures ParseDefinition(HugeDefinition(huge), rules) == Err(Overflowed)
  {
    var clause := HugeClause(huge);
    assert clause.fields.Keys == {"field", "op", "value", "weight"};
    assert ParseClause(clause, Prefer, rules) == Err(Overflowed);
    assert ParseClauses([clause], Prefer, rules) == Err(Overflowed);
    assert HugeDefinition(huge).fields.Keys == {"prefer"};
  }

  function HugeClause(huge: real): Json {
    JObj(map["field" := JStr("name"), "op" := JStr("=="), "value" := JStr("groq"), "weight" := JNum(huge)])
  }

  function HugeDefinition(huge: real): Json {
    JObj(map["prefer" := JList([HugeClause(huge)])])
  }

  // ---------- serializer ----------

  function ClauseToJson(c: Clause, section: Section): Json {
    var base := map["field" := JStr(c.field), "op" := JStr(c.op), "value" := c.value];
    JObj(if section.Prefer? then base["weight" := JNum(c.weight)] else base)
  }

  function ClausesToJson(cs: seq<Clause>, section: Section): seq<Json> {
    seq(|cs|, i requires 0 <= i < |cs| => ClauseToJson(cs[i], section))
  }

  function Serialize(d: Definition): Json {
    JObj(map["require" := JList(ClausesToJson(d.require, Require)),
             "prefer" := JList(ClausesToJson(d.prefer, Prefer))])
  }

  lemma ClauseRoundTrip(c: Clause, section: Section, rules: FloatRules)
    requires WellTyped(c) && (if section.Require? then c.weight == 0.0 else !rules.tooLarge(c.weight))
    ensures ParseClause(ClauseToJson(c, section), section, rules) == Ok(c)
  {
    var f := ClauseToJson(c, section).fields;
    assert f.Keys <= {"field", "op", "value", "weight"};
  }

  lemma {:induction false} ClausesRoundTrip(cs: seq<Clause>, section: Section, rules: FloatRules)
    requires forall c | c in cs ::
      WellTyped(c) && (if section.Require? then c.weight == 0.0 else !rules.tooLarge(c.weight))
    ensures ParseClauses(ClausesToJson(cs, section), section, rules) == Ok(cs)
    decreases |cs|
  {
    hide ParseClause, ClauseToJson, WellTyped;
    if cs != [] {
      ClauseRoundTrip(cs[0], section, rules);
      ClausesRoundTrip(cs[1..], section, rules);
      assert ClausesToJson(cs, section)[1..] == ClausesToJson(cs[1..], section);
      assert [cs[0]] + cs[1..] == cs;
    }
  }

  /** Printing and parsing again gives the same definition exactly for the well-typed ones whose weights
      are floats. */
  lemma RoundTripIff(d: Definition, rules: FloatRules)
    requires Coherent(rules)
    ensures ParseDefinition(Serialize(d), rules) == Ok(d) <==> WellTypedDefinition(d) && FloatWeights(d, rules)
  {
    hide ParseClauses, ClausesToJson, WellTyped;
    var raw := Serialize(d);
    assert raw.fields.Keys == {"require", "prefer"};
    if WellTypedDefinition(d) && FloatWeights(d, rules) {
      ClausesRoundTrip(d.require, Require, rules);
      ClausesRoundTrip(d.prefer, Prefer, rules);
      assert SectionOf(raw.fields, "require") == JList(ClausesToJson(d.require, Require));
      assert SectionOf(raw.fields, "prefer") == JList(ClausesToJson(d.prefer, Prefer));
    }
    if ParseDefinition(raw, rules) == Ok(d) {
      ParseSound(raw, rules);
    }
  }

  /** So what the API stores is a fixed point: parsing a printed definition and printing it again
      changes nothing. */
  lemma SerializedIsFixedPoint(raw: Json, rules: FloatRules)
    requires ParseDefinition(raw, rules).Ok? && Coherent(rules)
    ensures var d := ParseDefinition(raw, rules).value;
      ParseDefinition(Serialize(d), rules) == Ok(d)
      && Serialize(ParseDefinition(Serialize(d), rules).value) == Serialize(d)
  {
    ParseSound(raw, rules);
    RoundTripIff(ParseDefinition(raw, rules).value, rules);
  }

  // ---------- evaluator ----------

  datatype Eval = Val(b: bool) | TypeError

  predicate Numeric(x: Json) {
    x.JNum? || x.JBool?
  }

  function NumericValue(x: Json): real
    requires Numeric(x)
  {
    match x case JNum(n) => n case JBool(b) => if b then 1.0 else 0.0
  }

  /** `==` between values: numbers and booleans compare by value. */
  predicate SameValue(a: Json, b: Json) {
    if Numeric(a) && Numeric(b) then NumericValue(a) == NumericValue(b) else a == b
  }

  predicate OccursAt(a: string, b: string, i: nat) {
    i + |a| <= |b| && b[i..i + |a|] == a
  }

  predicate IsSubstring(a: string, b: string) {
    exists i | 0 <= i <= |b| :: OccursAt(a, b, i)
  }

  /** `x in container`. */
  function Member(x: Json, container: Json): Eval {
    match container
    case JList(items) => Val(exists v | v in items :: SameValue(x, v))
    case JStr(s) => if x.JStr? then Val(IsSubstring(x.s, s)) else TypeError
    case JObj(fields) => Val(x.JStr? && x.s in fields)
    case _ => TypeError
  }

  /** `a < b`. Lists are counted as not comparable, which only makes type soundness stronger. */
  function Less(a: Json, b: Json): Eval {
    if Numeric(a) && Numeric(b) then Val(NumericValue(a) < NumericValue(b))
    else if a.JStr? && b.JStr? then Val(StringLess(a.s, b.s))
    else TypeError
  }

  function LessOrSame(a: Json, b: Json): Eval {
    if Less(a, b).TypeError? then TypeError else Val(Less(a, b).b || SameValue(a, b))
  }

  /** `matches`. */
  function Matches(c: Clause, ctx: map<string, Json>): Eval {
    if c.field !in ctx || ctx[c.field].JNull? then Val(false)
    else
      var actual := ctx[c.field];
      if c.op == "contains" then
        var m := Member(c.value, actual);
        if m.TypeError? then Val(false) else m
      else if c.op == "in" then Member(actual, c.value)
      else if c.op == "==" then Val(SameValue(actual, c.value))
      else if c.op == "!=" then Val(!SameValue(actual, c.value))
      else if c.op == "<" then Less(actual, c.value)
      else if c.op == "<=" then LessOrSame(actual, c.value)
      else if c.op == ">" then Less(c.value, actual)
      else if c.op == ">=" then LessOrSame(c.value, actual)
      else Val(false)
  }

  datatype Score = Excluded | Total(points: real) | ScoreTypeError

  /** Every require clause holds (or the first one that does not settles the matter). */
  function Passes(require: seq<Clause>, ctx: map<string, Json>): Eval {
    if require == [] then Val(true)
    else
      match Matches(require[0], ctx)
      case TypeError => TypeError
      case Val(b) => if b then Passes(require[1..], ctx) else Val(false)
  }

  predicate AnyTypeError(cs: seq<Clause>, ctx: map<string, Json>) {
    exists c | c in cs :: Matches(c, ctx).TypeError?
  }

  /** The weights of the matching prefer clauses. */
  function Points(prefer: seq<Clause>, ctx: map<string, Json>): real {
    if prefer == [] then 0.0
    else
      var n := |prefer| - 1;
      Points(prefer[..n], ctx) + if Matches(prefer[n], ctx) == Val(true) then prefer[n].weight else 0.0
  }

  function ScoreOf(d: Definition, ctx: map<string, Json>): Score {
    match Passes(d.require, ctx)
    case TypeError => ScoreTypeError
    case Val(false) => Excluded
    case Val(true) => if AnyTypeError(d.prefer, ctx) then ScoreTypeError else Total(Points(d.prefer, ctx))
  }

  /** `score`. */
  method ComputeScore(d: Definition, ctx: map<string, Json>) returns (s: Score)
    ensures s == ScoreOf(d, ctx)
    ensures WellTypedDefinition(d) && TypedContext(ctx) ==>
      s == if exists c :: c in d.require && !Holds(c, ctx) then Excluded else Total(HoldingWeights(d.prefer, ctx))
  {
    hide Holds, HoldingWeights, Matches, WellTypedDefinition, TypedContext;
    if WellTypedDefinition(d) && TypedContext(ctx) {
      ScoreMeans(d, ctx);
    }
    var i := 0;
    while i < |d.require|
      invariant i <= |d.require|
      invariant Passes(d.require, ctx) == Passes(d.require[i..], ctx)
    {
      match Matches(d.require[i], ctx) {
        case TypeError => return ScoreTypeError;
        case Val(b) => if !b { return Excluded; }
      }
      i := i + 1;
    }
    var total := 0.0;
    for k := 0 to |d.prefer|
      invariant !AnyTypeError(d.prefer[..k], ctx)
      invariant total == Points(d.prefer[..k], ctx)
    {
      var m := Matches(d.prefer[k], ctx);
      assert d.prefer[..k + 1][..k] == d.prefer[..k] && d.prefer[..k + 1] == d.prefer[..k] + [d.prefer[k]];
      if m.TypeError? {
        return ScoreTypeError;
      }
      if m.b {
        total := total + d.prefer[k].weight;
      }
    }
    assert d.prefer[..|d.prefer|] == d.prefer;
    s := Total(total);
  }

  // ---------- type soundness ----------

  /** Every value of the context has the type of its field, or is absent. */
  ghost predicate TypedContext(ctx: map<string, Json>) {
    forall field | field in ctx && FieldTypeOf(field).Some? ::
      ctx[field].JNull? ||
      match FieldTypeOf(field).value
      case StringArray => ctx[field].JList?
      case StringField => ctx[field].JStr?
      case NumberField => ctx[field].JNum?
      case BoolField => ctx[field].JBool?
  }

  lemma MatchIsSafe(c: Clause, ctx: map<string, Json>)
    requires WellTyped(c) && TypedContext(ctx)
    ensures Matches(c, ctx).Val?
  {
  }

  lemma {:induction false} PassesIsSafe(require: seq<Clause>, ctx: map<string, Json>)
    requires TypedContext(ctx) && forall c | c in require :: WellTyped(c)
    ensures Passes(require, ctx).Val?
    ensures Passes(require, ctx) == Val(true) <==> forall c | c in require :: Matches(c, ctx) == Val(true)
    decreases |require|
  {
    if require != [] {
      MatchIsSafe(require[0], ctx);
      PassesIsSafe(require[1..], ctx);
    }
  }

  /** The DSL is type sound: a definition the parser accepts evaluates without a type error, and
      excludes a provider exactly when one of its require clauses does not match. */
  lemma AcceptedDefinitionsAreSafe(raw: Json, rules: FloatRules, ctx: map<string, Json>)
    requires ParseDefinition(raw, rules).Ok? && Coherent(rules) && TypedContext(ctx)
    ensures var d := ParseDefinition(raw, rules).value;
      && !ScoreOf(d, ctx).ScoreTypeError?
      && (ScoreOf(d, ctx).Excluded? <==> exists c :: c in d.require && Matches(c, ctx) == Val(false))
  {
    ParseSound(raw, rules);
    var d := ParseDefinition(raw, rules).value;
    PassesIsSafe(d.require, ctx);
    forall c | c in d.prefer ensures Matches(c, ctx).Val? { MatchIsSafe(c, ctx); }
    forall c | c in d.require ensures Matches(c, ctx).Val? { MatchIsSafe(c, ctx); }
  }

  // ---------- what the operators mean ----------

  /** How a number of the context compares with the number of the clause. */
  predicate NumberHolds(op: string, x: real, y: real) {
    || (op == "==" && x == y) || (op == "!=" && x != y)
    || (op == "<" && x < y) || (op == "<=" && x <= y)
    || (op == ">" && x > y) || (op == ">=" && x >= y)
  }

  /** When a clause holds, by the type of the field's value. A missing or null field never does. */
  predicate Holds(c: Clause, ctx: map<string, Json>) {
    c.field in ctx &&
    match ctx[c.field]
    case JNum(x) => c.value.JNum? && NumberHolds(c.op, x, c.value.n)
    case JStr(x) =>
      || (c.op == "==" && c.value == JStr(x)) || (c.op == "!=" && c.value != JStr(x))
      || (c.op == "in" && c.value.JList? && JStr(x) in c.value.items)
    case JBool(x) => (c.op == "==" && c.value == JBool(x)) || (c.op == "!=" && c.value != JBool(x))
    case JList(tags) => c.op == "contains" && c.value.JStr? && c.value in tags
    case _ => false
  }

  /** An accepted clause matches a typed context exactly when it holds. */
  lemma MatchesMeans(c: Clause, ctx: map<string, Json>)
    requires WellTyped(c) && TypedContext(ctx)
    ensures Matches(c, ctx) == Val(Holds(c, ctx))
  {
    if c.field in ctx && c.op == "in" {
      assert c.value.JList? && forall v | v in c.value.items :: v.JStr?;
    }
  }

  /** The sum of the weights of the clauses that hold. */
  function HoldingWeights(prefer: seq<Clause>, ctx: map<string, Json>): real {
    if prefer == [] then 0.0
    else (if Holds(prefer[0], ctx) then prefer[0].weight else 0.0) + HoldingWeights(prefer[1..], ctx)
  }

  lemma {:induction false} HoldingWeightsSnoc(prefer: seq<Clause>, c: Clause, ctx: map<string, Json>)
    ensures HoldingWeights(prefer + [c], ctx)
      == HoldingWeights(prefer, ctx) + if Holds(c, ctx) then c.weight else 0.0
    decreases |prefer|
  {
    hide Holds;
    if prefer == [] {
      assert [] + [c] == [c] && [c][1..] == [];
    } else {
      assert (prefer + [c])[0] == prefer[0] && (prefer + [c])[1..] == prefer[1..] + [c];
      HoldingWeightsSnoc(prefer[1..], c, ctx);
    }
  }

  lemma {:induction false} PointsMeans(prefer: seq<Clause>, ctx: map<string, Json>)
    requires TypedContext(ctx) && forall c | c in prefer :: WellTyped(c)
    ensures Points(prefer, ctx) == HoldingWeights(prefer, ctx)
    decreases |prefer|
  {
    hide Holds, Matches, WellTyped, TypedContext;
    if prefer != [] {
      var n := |prefer| - 1;
      assert prefer == prefer[..n] + [prefer[n]];
      PointsMeans(prefer[..n], ctx);
      HoldingWeightsSnoc(prefer[..n], prefer[n], ctx);
      MatchesMeans(prefer[n], ctx);
    }
  }

  /** An accepted definition excludes a provider exactly when one of its require clauses does not hold,
      and otherwise gives it the weights of the prefer clauses that hold. */
  lemma ScoreMeans(d: Definition, ctx: map<string, Json>)
    requires WellTypedDefinition(d) && TypedContext(ctx)
    ensures ScoreOf(d, ctx) ==
      if exists c :: c in d.require && !Holds(c, ctx) then Excluded else Total(HoldingWeights(d.prefer, ctx))
  {
    hide Holds, Matches, WellTyped, TypedContext;
    PassesIsSafe(d.require, ctx);
    PointsMeans(d.prefer, ctx);
    forall c | c in d.require || c in d.prefer ensures Matches(c, ctx) == Val(Holds(c, ctx)) {
      MatchesMeans(c, ctx);
    }
  }

  // ---------- what the parser accepts, written out ----------

  /** The operators and values a field may be compared with. */
  predicate Allowed(field: string, op: string, value: Json) {
    || (field == "tags" && op == "contains" && value.JStr?)
    || (field == "name" && op in {"==", "!="} && value.JStr?)
    || (field == "name" && op == "in" && value.JList? && value.items != [] && forall v | v in value.items :: v.JStr?)
    || (field == "enabled" && op in {"==", "!="} && value.JBool?)
    || (field in {"weight", "last_latency_ms", "latency_ema_ms", "requests_today", "requests_this_minute",
                  "rpd_remaining", "rpm_remaining", "total_failures"}
        && op in {"==", "!=", "<", "<=", ">", ">="} && value.JNum?)
  }

  lemma WellTypedMeans(c: Clause)
    ensures WellTyped(c) <==> Allowed(c.field, c.op, c.value)
  {
  }

  /** A require clause is accepted exactly when it is an object of a field, an operator and a value that
      go together, and nothing else. */
  lemma RequireAcceptedIff(raw: Json, rules: FloatRules)
    ensures ParseClause(raw, Require, rules).Ok? <==>
      && raw.JObj? && raw.fields.Keys == {"field", "op", "value"}
      && raw.fields["field"].JStr? && raw.fields["op"].JStr?
      && Allowed(raw.fields["field"].s, raw.fields["op"].s, raw.fields["value"])
    ensures ParseClause(raw, Require, rules).Ok? ==>
      ParseClause(raw, Require, rules).value ==
        Clause(raw.fields["field"].s, raw.fields["op"].s, raw.fields["value"], 0.0)
  {
    if raw.JObj? {
      var keys := raw.fields.Keys;
      assert keys == {"field", "op", "value"} <==>
        keys <= {"field", "op", "value", "weight"} && "field" in keys && "op" in keys && "value" in keys
          && "weight" !in keys;
      if "field" in raw.fields && "op" in raw.fields && "value" in raw.fields
        && raw.fields["field"].JStr? && raw.fields["op"].JStr? {
        WellTypedMeans(Clause(raw.fields["field"].s, raw.fields["op"].s, raw.fields["value"], 0.0));
      }
    }
  }

  /** A prefer clause needs a weight that is a float besides, and carries it. */
  lemma PreferAcceptedIff(raw: Json, rules: FloatRules)
    ensures ParseClause(raw, Prefer, rules).Ok? <==>
      && raw.JObj? && raw.fields.Keys == {"field", "op", "value", "weight"}
      && raw.fields["field"].JStr? && raw.fields["op"].JStr?
      && Allowed(raw.fields["field"].s, raw.fields["op"].s, raw.fields["value"])
      && (match raw.fields["weight"]
          case JNum(n) => !rules.tooLarge(n)
          case JBool(_) => true
          case JStr(s) => rules.ofString(s).Some?
          case _ => false)
    ensures ParseClause(raw, Prefer, rules).Ok? ==>
      var c := ParseClause(raw, Prefer, rules).value;
      && c.field == raw.fields["field"].s && c.op == raw.fields["op"].s && c.value == raw.fields["value"]
      && c.weight == match raw.fields["weight"]
                     case JNum(n) => n
                     case JBool(b) => if b then 1.0 else 0.0
                     case JStr(s) => rules.ofString(s).value
  {
    if raw.JObj? {
      var keys := raw.fields.Keys;
      assert keys == {"field", "op", "value", "weight"} <==>
        keys <= {"field", "op", "value", "weight"} && "field" in keys && "op" in keys && "value" in keys
          && "weight" in keys;
      if "field" in raw.fields && "op" in raw.fields && "value" in raw.fields
        && raw.fields["field"].JStr? && raw.fields["op"].JStr? {
        WellTypedMeans(Clause(raw.fields["field"].s, raw.fields["op"].s, raw.fields["value"], 0.0));
      }
    }
  }

  lemma {:induction false} ClausesAcceptedIff(raws: seq<Json>, section: Section, rules: FloatRules)
    ensures var r := ParseClauses(raws, section, rules);
      && (r.Ok? <==> forall i | 0 <= i < |raws| :: ParseClause(raws[i], section, rules).Ok?)
      && (r.Ok? ==>
            && |r.value| == |raws|
            && forall i | 0 <= i < |raws| :: ParseClause(raws[i], section, rules) == Ok(r.value[i]))
    decreases |raws|
  {
    hide ParseClause;
    if raws != [] {
      ClausesAcceptedIff(raws[1..], section, rules);
      assert forall i | 0 < i < |raws| :: raws[i] == raws[1..][i - 1];
    }
  }

  /** A section is fine when it is missing or stands for nothing (null, false, zero, or something empty), or
      when it is a list of fine clauses. */
  predicate SectionFine(fields: map<string, Json>, name: string, section: Section, rules: FloatRules) {
    name !in fields ||
    match fields[name]
    case JNull => true
    case JBool(b) => !b
    case JNum(n) => n == 0.0
    case JStr(s) => s == ""
    case JObj(m) => m == map[]
    case JList(items) => forall i | 0 <= i < |items| :: ParseClause(items[i], section, rules).Ok?
  }

  /** The clauses are those of the list, in order; there are none in what stands for nothing. */
  ghost predicate ClausesOf(
    fields: map<string, Json>, name: string, section: Section, rules: FloatRules, cs: seq<Clause>)
  {
    if name in fields && fields[name].JList? then
      && |cs| == |fields[name].items|
      && forall i | 0 <= i < |cs| :: ParseClause(fields[name].items[i], section, rules) == Ok(cs[i])
    else cs == []
  }

  lemma SectionAcceptedIff(fields: map<string, Json>, name: string, section: Section, rules: FloatRules)
    ensures var r := ParseSection(SectionOf(fields, name), section, rules);
      (r.Ok? <==> SectionFine(fields, name, section, rules))
      && (r.Ok? ==> ClausesOf(fields, name, section, rules, r.value))
  {
    hide ParseClause;
    if name in fields && fields[name].JList? {
      ClausesAcceptedIff(fields[name].items, section, rules);
    }
  }

  /** A definition is accepted exactly when it is null, which stands for no rules, or an object of at most the
      two sections, both fine; and then it holds their clauses. */
  lemma DefinitionAcceptedIff(raw: Json, rules: FloatRules)
    ensures var r := ParseDefinition(raw, rules);
      && (r.Ok? <==>
            || raw.JNull?
            || (raw.JObj? && raw.fields.Keys <= {"require", "prefer"}
                && SectionFine(raw.fields, "require", Require, rules)
                && SectionFine(raw.fields, "prefer", Prefer, rules)))
      && (raw.JNull? ==> r == Ok(Definition([], [])))
      && (r.Ok? && raw.JObj? ==>
            && ClausesOf(raw.fields, "require", Require, rules, r.value.require)
            && ClausesOf(raw.fields, "prefer", Prefer, rules, r.value.prefer))
  {
    hide ParseSection, SectionOf, SectionFine, ClausesOf;
    if raw.JObj? {
      SectionAcceptedIff(raw.fields, "require", Require, rules);
      SectionAcceptedIff(raw.fields, "prefer", Prefer, rules);
    }
  }
}
