/** `_process_metadata_filter_func`: one filter condition (operator, field name,
    value) becomes at most one predicate over a document's metadata, appended to
    the caller's filter list. A missing key is SQL NULL, so every predicate on it
    is false except "empty". */
module ConditionCompiler {
  import opened Common
  import opened MetadataValues
  import opened LikePattern

  datatype Comparison = Eq | Ne | Lt | Gt | Le | Ge

  /** The SQL expressions the compiler builds. */
  datatype Predicate =
    | Like(field: string, pattern: string)                         // doc_metadata ->> field LIKE pattern
    | NotLike(field: string, pattern: string)                      // ... NOT LIKE pattern
    | JsonEquals(field: string, s: string)                         // doc_metadata[field] == '"s"'
    | JsonNotEquals(field: string, s: string)                      // doc_metadata[field] != '"s"'
    | NumericCompare(field: string, cmp: Comparison, operand: CondValue) // CAST(... AS FLOAT) cmp value
    | IsNull(field: string)                                        // doc_metadata[field] IS NULL
    | IsNotNull(field: string)                                     // doc_metadata[field] IS NOT NULL

  /** Every operator string the compiler recognises. */
  const Operators: set<string> := {
    "contains", "not contains", "start with", "end with",
    "=", "is", "is not", "\U{2260}", "empty", "not empty",
    "before", "<", "after", ">", "\U{2264}", "<=", "\U{2265}", ">="
  }

  /** The predicate a condition compiles to, or None when nothing is appended:
      a None value (checked first, for every operator) or an unknown operator. */
  function Compile(condition: Option<string>, name: string, value: Option<CondValue>): Option<Predicate> {
    if value.None? || condition.None? then None
    else
      var v := value.value;
      match condition.value
      case "contains" => Some(Like(name, "%" + ValueText(v) + "%"))
      case "not contains" => Some(NotLike(name, "%" + ValueText(v) + "%"))
      case "start with" => Some(Like(name, ValueText(v) + "%"))
      case "end with" => Some(Like(name, "%" + ValueText(v)))
      case "=" | "is" =>
        if v.Str? then Some(JsonEquals(name, v.s)) else Some(NumericCompare(name, Eq, v))
      case "is not" | "\U{2260}" =>
        if v.Str? then Some(JsonNotEquals(name, v.s)) else Some(NumericCompare(name, Ne, v))
      case "empty" => Some(IsNull(name))
      case "not empty" => Some(IsNotNull(name))
      case "before" | "<" => Some(NumericCompare(name, Lt, v))
      case "after" | ">" => Some(NumericCompare(name, Gt, v))
      case "\U{2264}" | "<=" => Some(NumericCompare(name, Le, v))
      case "\U{2265}" | ">=" => Some(NumericCompare(name, Ge, v))
      case _ => None
  }

  predicate Holds(cmp: Comparison, x: int, y: int) {
    match cmp
    case Eq => x == y
    case Ne => x != y
    case Lt => x < y
    case Gt => x > y
    case Le => x <= y
    case Ge => x >= y
  }

  /** Whether a document whose metadata is `meta` satisfies the predicate. */
  predicate Eval(p: Predicate, meta: map<string, MetaValue>) {
    match p
    case Like(f, pat) => f in meta && Matches(Render(meta[f]), pat)
    case NotLike(f, pat) => f in meta && !Matches(Render(meta[f]), pat)
    case JsonEquals(f, s) => f in meta && meta[f] == Text(s)
    case JsonNotEquals(f, s) => f in meta && meta[f] != Text(s)
    case NumericCompare(f, cmp, v) =>
      f in meta && CastNumber(meta[f]).Some? && NumberOf(v).Some?
      && Holds(cmp, CastNumber(meta[f]).value, NumberOf(v).value)
    case IsNull(f) => f !in meta
    case IsNotNull(f) => f in meta
  }

  /** The list a compiled condition appends to the filters. */
  function Appended(p: Option<Predicate>): (r: seq<Predicate>)
    ensures |r| <= 1
  {
    if p.Some? then [p.value] else []
  }

  /** A condition yields a predicate exactly when its value is not None and its
      operator is one of the recognised strings. */
  lemma CompileDefinedIff(condition: Option<string>, name: string, value: Option<CondValue>)
    ensures Compile(condition, name, value).Some? <==>
            value.Some? && condition.Some? && condition.value in Operators
  {
  }

  /** "empty" and "not empty" ignore the (non-None) value and test whether the
      key is absent or present. */
  lemma PresenceIgnoresValue(name: string, v1: CondValue, v2: CondValue, meta: map<string, MetaValue>)
    ensures Compile(Some("empty"), name, Some(v1)) == Compile(Some("empty"), name, Some(v2))
    ensures Compile(Some("not empty"), name, Some(v1)) == Compile(Some("not empty"), name, Some(v2))
    ensures Eval(Compile(Some("empty"), name, Some(v1)).value, meta) <==> name !in meta
    ensures Eval(Compile(Some("not empty"), name, Some(v1)).value, meta) <==> name in meta
  {
  }

  /** "contains" tests that the field's text contains the value; "not contains"
      that the field is present and does not. */
  lemma ContainsSemantics(name: string, v: CondValue, meta: map<string, MetaValue>)
    requires Literal(ValueText(v))
    ensures Compile(Some("contains"), name, Some(v)).Some?
    ensures Compile(Some("not contains"), name, Some(v)).Some?
    ensures Eval(Compile(Some("contains"), name, Some(v)).value, meta) <==>
            name in meta && IsSubstring(ValueText(v), Render(meta[name]))
    ensures Eval(Compile(Some("not contains"), name, Some(v)).value, meta) <==>
            name in meta && !IsSubstring(ValueText(v), Render(meta[name]))
  {
    if name in meta {
      ContainsPattern(Render(meta[name]), ValueText(v));
    }
  }

  /** "start with" and "end with" test prefix and suffix of the field's text. */
  lemma AffixSemantics(name: string, v: CondValue, meta: map<string, MetaValue>)
    requires Literal(ValueText(v))
    ensures Compile(Some("start with"), name, Some(v)).Some?
    ensures Compile(Some("end with"), name, Some(v)).Some?
    ensures Eval(Compile(Some("start with"), name, Some(v)).value, meta) <==>
            name in meta && IsPrefix(ValueText(v), Render(meta[name]))
    ensures Eval(Compile(Some("end with"), name, Some(v)).value, meta) <==>
            name in meta && IsSuffix(ValueText(v), Render(meta[name]))
  {
    if name in meta {
      PrefixPattern(Render(meta[name]), ValueText(v));
      SuffixPattern(Render(meta[name]), ValueText(v));
    }
  }

  /** "=" / "is" with a string compares the stored JSON value with that string;
      with a number it compares the field numerically, so a stored number
      matches exactly when it equals the value. */
  lemma EqualsSemantics(op: string, name: string, v: CondValue, meta: map<string, MetaValue>)
    requires op == "=" || op == "is"
    ensures Compile(Some(op), name, Some(v)).Some?
    ensures v.Str? ==> (Eval(Compile(Some(op), name, Some(v)).value, meta) <==>
                        name in meta && meta[name] == Text(v.s))
    ensures v.Num? && name in meta && meta[name].Number? ==>
            (Eval(Compile(Some(op), name, Some(v)).value, meta) <==> meta[name].n == v.n)
    ensures name !in meta ==> !Eval(Compile(Some(op), name, Some(v)).value, meta)
  {
    if name in meta && meta[name].Number? {
      CastOfStoredNumber(meta[name].n);
    }
  }

  /** "is not" / "≠" is the same comparison negated, on a present field. */
  lemma NotEqualsSemantics(op: string, name: string, v: CondValue, meta: map<string, MetaValue>)
    requires op == "is not" || op == "\U{2260}"
    ensures Compile(Some(op), name, Some(v)).Some?
    ensures v.Str? ==> (Eval(Compile(Some(op), name, Some(v)).value, meta) <==>
                        name in meta && meta[name] != Text(v.s))
    ensures v.Num? && name in meta && meta[name].Number? ==>
            (Eval(Compile(Some(op), name, Some(v)).value, meta) <==> meta[name].n != v.n)
    ensures name !in meta ==> !Eval(Compile(Some(op), name, Some(v)).value, meta)
  {
    if name in meta && meta[name].Number? {
      CastOfStoredNumber(meta[name].n);
    }
  }

  /** The order operators compare a stored number with a numeric value. */
  lemma OrderSemantics(op: string, name: string, n: int, meta: map<string, MetaValue>)
    requires name in meta && meta[name].Number?
    requires op in {"before", "<", "after", ">", "\U{2264}", "<=", "\U{2265}", ">="}
    ensures Compile(Some(op), name, Some(Num(n))).Some?
    ensures var holds := Eval(Compile(Some(op), name, Some(Num(n))).value, meta);
            var k := meta[name].n;
            && (op == "before" || op == "<" ==> (holds <==> k < n))
            && (op == "after" || op == ">" ==> (holds <==> k > n))
            && (op == "\U{2264}" || op == "<=" ==> (holds <==> k <= n))
            && (op == "\U{2265}" || op == ">=" ==> (holds <==> k >= n))
  {
    CastOfStoredNumber(meta[name].n);
    assert NumberOf(Num(n)) == Some(n);
    var cmp := if op == "before" || op == "<" then Lt
               else if op == "after" || op == ">" then Gt
               else if op == "\U{2264}" || op == "<=" then Le
               else Ge;
    assert Compile(Some(op), name, Some(Num(n))) == Some(NumericCompare(name, cmp, Num(n)));
  }

  /** A stored text that does not convert to a number fails every numeric
      comparison instead of raising. */
  lemma NonNumericFailsComparison(op: string, name: string, v: CondValue, meta: map<string, MetaValue>)
    requires name in meta && meta[name].Text? && ParseDecimal(meta[name].s).None?
    requires op in {"before", "<", "after", ">", "\U{2264}", "<=", "\U{2265}", ">="}
    ensures !Eval(Compile(Some(op), name, Some(v)).value, meta)
  {
    assert CastNumber(meta[name]).None?;
    var p := Compile(Some(op), name, Some(v)).value;
    assert p.NumericCompare? && p.field == name;
  }

  /** The caller's filter list, which the compiler appends to in place. */
  class FilterList {
    var items: seq<Predicate>

    constructor ()
      ensures items == []
    {
      items := [];
    }

    /** Appends the compiled predicate, if any, and leaves earlier entries as
        they were. `returnsList` is false when the Python function returns None
        (a None value) instead of the list. */
    method Process(condition: Option<string>, name: string, value: Option<CondValue>) returns (returnsList: bool)
      modifies this
      ensures items == old(items) + Appended(Compile(condition, name, value))
      ensures returnsList <==> value.Some?
    {
      if value.None? {
        return false;
      }
      var p := Compile(condition, name, value);
      if p.Some? {
        items := items + [p.value];
      }
      return true;
    }
  }
}
