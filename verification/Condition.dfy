// The condition language of workflow branches: `path op literal`, or a bare path tested for truth.
module Condition {
  import opened Text

  // An IEEE double with rounding set aside.
  datatype Float = NaN | NegInf | Finite(x: real) | PosInf

  // A decoded JSON value.
  datatype Value =
    | Null
    | Bool(b: bool)
    | Number(n: Float)
    | Str(s: string)
    | Object(fields: map<string, Value>)
    | Array(items: seq<Value>)

  type Payload = map<string, Value>

  // Number parsing and printing, and the printing of composite values.
  datatype Formats = Formats(
    parse: string -> Result<Float>,
    format: Float -> string,
    sprint: Value -> string
  )

  datatype Result<T> = Ok(value: T) | Err(error: string)

  // ---- Splitting an expression ----

  const TWO_CHAR_OPS: seq<string> := ["==", "!=", ">=", "<="]
  const ONE_CHAR_OPS: seq<string> := [">", "<"]
  const OPS: seq<string> := TWO_CHAR_OPS + ONE_CHAR_OPS

  datatype Parts = Parts(op: string, path: string, lit: string)

  // The first operator in the list that occurs anywhere wins, wherever it occurs.
  function SplitOn(expr: string, ops: seq<string>): Parts {
    if ops == [] then Parts("", Trim(expr), "")
    else
      var i := Index(expr, ops[0]);
      if i >= 0 then Parts(ops[0], Trim(expr[..i]), Trim(expr[i + |ops[0]|..]))
      else SplitOn(expr, ops[1..])
  }

  function SplitExpr(expr: string): Parts {
    SplitOn(expr, OPS)
  }

  function Print(p: Parts): string {
    p.path + " " + p.op + " " + p.lit
  }

  // Within a stretch of a text, a pattern occurs where it occurs in the text.
  lemma OccursInStretch(s: string, lo: int, hi: int, pat: string, i: int)
    requires 0 <= lo <= i && i + |pat| <= hi <= |s|
    ensures OccursAt(s, pat, i) <==> OccursAt(s[lo..hi], pat, i - lo)
  {
    var t, a, b := s[lo..hi], i - lo, i - lo + |pat|;
    assert |t[a..b]| == |s[i..i + |pat|]|;
    assert forall k :: 0 <= k < |pat| ==> t[a..b][k] == t[a + k] == s[i + k] == s[i..i + |pat|][k];
    assert t[a..b] == s[i..i + |pat|];
  }

  lemma Pieces(p: Parts)
    ensures var s := Print(p); var n, m := |p.path|, |p.op|;
            && |s| == n + m + |p.lit| + 2
            && s[0..n] == p.path && s[n] == ' '
            && s[n + 1..n + 1 + m] == p.op && s[n + 1 + m] == ' '
            && s[n + m + 2..|s|] == p.lit
  {
  }

  lemma SpaceFree(s: string, pat: string, i: int, k: int)
    requires OccursAt(s, pat, i) && ' ' !in pat && i <= k < i + |pat|
    ensures s[k] != ' '
  {
    assert s[k] == s[i..i + |pat|][k - i] == pat[k - i];
  }

  // A pattern without spaces lies within one piece wherever it occurs.
  lemma OccurrenceWithinPiece(p: Parts, pat: string, i: int)
    requires pat != "" && ' ' !in pat && OccursAt(Print(p), pat, i)
    ensures var n, m := |p.path|, |p.op|;
            i + |pat| <= n || (n < i && i + |pat| <= n + 1 + m) || n + m + 1 < i
  {
    var s, n, m := Print(p), |p.path|, |p.op|;
    Pieces(p);
    if i <= n < i + |pat| {
      SpaceFree(s, pat, i, n);
    } else if i <= n + m + 1 < i + |pat| {
      SpaceFree(s, pat, i, n + m + 1);
    }
  }

  // A pattern without spaces occurs in the printed text exactly where it occurs in one of the pieces.
  lemma OccursInPieces(p: Parts, pat: string, i: int)
    requires pat != "" && ' ' !in pat && OccursAt(Print(p), pat, i)
    ensures || OccursAt(p.path, pat, i)
            || OccursAt(p.op, pat, i - |p.path| - 1)
            || OccursAt(p.lit, pat, i - |p.path| - |p.op| - 2)
  {
    var s, n, m := Print(p), |p.path|, |p.op|;
    Pieces(p);
    OccurrenceWithinPiece(p, pat, i);
    if i + |pat| <= n {
      OccursInStretch(s, 0, n, pat, i);
    } else if i + |pat| <= n + 1 + m {
      OccursInStretch(s, n + 1, n + 1 + m, pat, i);
    } else {
      OccursInStretch(s, n + m + 2, |s|, pat, i);
    }
  }

  lemma PieceOccurs(p: Parts, pat: string, i: int)
    ensures OccursAt(p.path, pat, i) ==> OccursAt(Print(p), pat, i)
    ensures OccursAt(p.lit, pat, i) ==> OccursAt(Print(p), pat, |p.path| + |p.op| + 2 + i)
  {
    var s, n, m := Print(p), |p.path|, |p.op|;
    Pieces(p);
    if OccursAt(p.path, pat, i) {
      OccursInStretch(s, 0, n, pat, i);
    }
    if OccursAt(p.lit, pat, i) {
      OccursInStretch(s, n + m + 2, |s|, pat, n + m + 2 + i);
    }
  }

  // A pattern without spaces occurs in the printed text just when it occurs in one of its pieces.
  lemma ContainsInPrint(p: Parts, pat: string)
    requires pat != "" && ' ' !in pat && !Contains(p.op, pat)
    ensures Contains(Print(p), pat) <==> Contains(p.path, pat) || Contains(p.lit, pat)
  {
    if Contains(Print(p), pat) {
      OccursInPieces(p, pat, Index(Print(p), pat));
    }
    if Contains(p.path, pat) {
      PieceOccurs(p, pat, Index(p.path, pat));
    }
    if Contains(p.lit, pat) {
      PieceOccurs(p, pat, Index(p.lit, pat));
    }
  }

  lemma PrintedOpOccurs(p: Parts)
    ensures OccursAt(Print(p), p.op, |p.path| + 1)
  {
    Pieces(p);
  }

  // The first occurrence of the operator is the printed one exactly when the path does not contain it.
  lemma FirstIsPrinted(p: Parts)
    requires p.op != "" && ' ' !in p.op
    ensures 0 <= Index(Print(p), p.op) <= |p.path| + 1
    ensures Contains(p.path, p.op) ==> Index(Print(p), p.op) < |p.path|
    ensures !Contains(p.path, p.op) ==> Index(Print(p), p.op) == |p.path| + 1
  {
    PrintedOpOccurs(p);
    var i := Index(Print(p), p.op);
    if Contains(p.path, p.op) {
      PieceOccurs(p, p.op, Index(p.path, p.op));
    } else {
      OccursInPieces(p, p.op, i);
    }
  }

  // Cutting there gives back path and literal exactly when the path does not contain the operator.
  lemma {:induction false} SplitsAtPrinted(p: Parts)
    requires Trimmed(p.path) && Trimmed(p.lit) && p.op != "" && ' ' !in p.op
    ensures var s := Print(p); var i := Index(s, p.op);
            i >= 0 && (Trim(s[..i]) == p.path && Trim(s[i + |p.op|..]) == p.lit <==> !Contains(p.path, p.op))
  {
    FirstIsPrinted(p);
    var s := Print(p);
    var i := Index(s, p.op);
    if Contains(p.path, p.op) {
      assert |Trim(s[..i])| < |p.path|;
    } else {
      assert s[..i] == p.path + " ";
      assert s[i + |p.op|..] == " " + p.lit;
      TrimPadded(p.path);
      TrimPadded(p.lit);
    }
  }

  // Operators tried before the given one.
  function Earlier(op: string): (r: seq<string>)
    requires op in OPS
    ensures op !in r && r <= OPS
  {
    var k := if op == "==" then 0 else if op == "!=" then 1 else if op == ">=" then 2
             else if op == "<=" then 3 else if op == ">" then 4 else 5;
    OPS[..k]
  }

  lemma {:induction false} SplitOnSkips(expr: string, before: seq<string>, after: seq<string>)
    requires forall k :: 0 <= k < |before| ==> !Contains(expr, before[k])
    ensures SplitOn(expr, before + after) == SplitOn(expr, after)
  {
    if before == [] {
      assert before + after == after;
    } else {
      assert (before + after)[1..] == before[1..] + after;
      SplitOnSkips(expr, before[1..], after);
    }
  }

  lemma {:induction false} SplitOnOp(expr: string, ops: seq<string>)
    ensures SplitOn(expr, ops).op == "" || SplitOn(expr, ops).op in ops
    ensures (exists k :: 0 <= k < |ops| && Contains(expr, ops[k])) ==> SplitOn(expr, ops).op in ops
  {
    if ops != [] && Index(expr, ops[0]) < 0 {
      SplitOnOp(expr, ops[1..]);
      if exists k :: 0 <= k < |ops| && Contains(expr, ops[k]) {
        var k :| 0 <= k < |ops| && Contains(expr, ops[k]);
        assert Contains(expr, ops[1..][k - 1]);
      }
    }
  }

  lemma ContainsFits(s: string, pat: string)
    requires Contains(s, pat) && |pat| >= |s|
    ensures s == pat
  {
    assert s[0..|pat|] == s;
  }

  lemma OpsApart(op: string, earlier: string)
    requires op in OPS && earlier in Earlier(op)
    ensures earlier != "" && ' ' !in earlier && !Contains(op, earlier)
  {
    assert OPS == ["==", "!=", ">=", "<=", ">", "<"];
    if Contains(op, earlier) {
      ContainsFits(op, earlier);
    }
  }

  lemma {:induction false} SplitOnPrefix(expr: string, before: seq<string>, after: seq<string>)
    requires exists k :: 0 <= k < |before| && Contains(expr, before[k])
    ensures SplitOn(expr, before + after).op in before
  {
    assert (before + after)[1..] == before[1..] + after;
    if Index(expr, before[0]) < 0 {
      var k :| 0 <= k < |before| && Contains(expr, before[k]);
      assert Contains(expr, before[1..][k - 1]);
      SplitOnPrefix(expr, before[1..], after);
    }
  }

  // What a trimmed path and literal must avoid for the operator to be found where it was printed.
  predicate Unambiguous(p: Parts)
    requires p.op in OPS
  {
    && !Contains(p.path, p.op)
    && forall k :: 0 <= k < |Earlier(p.op)| ==>
         !Contains(p.path, Earlier(p.op)[k]) && !Contains(p.lit, Earlier(p.op)[k])
  }

  ghost predicate Avoids(p: Parts, before: seq<string>) {
    && !Contains(p.path, p.op)
    && forall k :: 0 <= k < |before| ==> !Contains(p.path, before[k]) && !Contains(p.lit, before[k])
  }

  lemma SplitOnHead(p: Parts, ops: seq<string>)
    requires Trimmed(p.path) && Trimmed(p.lit) && p.op != "" && ' ' !in p.op
    requires ops != [] && ops[0] == p.op
    ensures SplitOn(Print(p), ops) == p <==> !Contains(p.path, p.op)
  {
    SplitsAtPrinted(p);
  }

  lemma {:induction false} SplitOnPrinted(p: Parts, before: seq<string>, after: seq<string>)
    requires Trimmed(p.path) && Trimmed(p.lit) && p.op != "" && ' ' !in p.op
    requires after != [] && after[0] == p.op && p.op !in before
    requires forall k :: 0 <= k < |before| ==> before[k] != "" && ' ' !in before[k] && !Contains(p.op, before[k])
    ensures SplitOn(Print(p), before + after) == p <==> Avoids(p, before)
  {
    var s := Print(p);
    forall k | 0 <= k < |before|
      ensures Contains(s, before[k]) <==> Contains(p.path, before[k]) || Contains(p.lit, before[k])
    {
      ContainsInPrint(p, before[k]);
    }
    if exists k :: 0 <= k < |before| && Contains(s, before[k]) {
      SplitOnPrefix(s, before, after);
    } else {
      SplitOnSkips(s, before, after);
      SplitOnHead(p, after);
    }
  }

  // Printing and splitting is the identity exactly on unambiguous parts.
  lemma RoundTripExact(p: Parts)
    requires p.op in OPS && Trimmed(p.path) && Trimmed(p.lit)
    ensures SplitExpr(Print(p)) == p <==> Unambiguous(p)
  {
    var before := Earlier(p.op);
    var after := OPS[|before|..];
    assert OPS == before + after && after[0] == p.op;
    forall k | 0 <= k < |before|
      ensures before[k] != "" && ' ' !in before[k] && !Contains(p.op, before[k])
    {
      OpsApart(p.op, before[k]);
    }
    SplitOnPrinted(p, before, after);
  }

  predicate OperatorFree(s: string) {
    forall c :: c in s ==> c !in {'=', '!', '<', '>'}
  }

  lemma ContainsFirstChar(s: string, pat: string)
    requires pat != "" && Contains(s, pat)
    ensures pat[0] in s
  {
    var i := Index(s, pat);
    assert s[i] == s[i..i + |pat|][0];
  }

  lemma OperatorFreeAvoids(s: string, op: string)
    requires OperatorFree(s) && op in OPS
    ensures !Contains(s, op)
  {
    assert OPS == ["==", "!=", ">=", "<=", ">", "<"];
    if Contains(s, op) {
      ContainsFirstChar(s, op);
    }
  }

  // In particular, a path and a literal without operator characters always round-trip.
  lemma RoundTripOperatorFree(p: Parts)
    requires p.op in OPS && Trimmed(p.path) && Trimmed(p.lit)
    requires OperatorFree(p.path) && OperatorFree(p.lit)
    ensures SplitExpr(Print(p)) == p
  {
    RoundTripExact(p);
    forall op | op in OPS ensures !Contains(p.path, op) && !Contains(p.lit, op) {
      OperatorFreeAvoids(p.path, op);
      OperatorFreeAvoids(p.lit, op);
    }
    forall k | 0 <= k < |Earlier(p.op)| ensures Earlier(p.op)[k] in OPS {
      assert Earlier(p.op)[k] == OPS[k];
    }
  }

  // ---- Looking a path up ----

  // One step into a value; anything but an object with the key gives null.
  function Field(v: Value, key: string): Value {
    if v.Object? && key in v.fields then v.fields[key] else Null
  }

  function Descend(v: Value, keys: seq<string>): Value
    decreases keys
  {
    if keys == [] then v else Descend(Field(v, keys[0]), keys[1..])
  }

  function Lookup(payload: Payload, path: string): Value {
    if path == "" then Null else Descend(Object(payload), Split(path, '.'))
  }

  lemma {:induction false} DescendNull(v: Value, keys: seq<string>)
    requires !v.Object? && keys != []
    ensures Descend(v, keys) == Null
    decreases keys
  {
    if |keys| > 1 {
      DescendNull(Null, keys[1..]);
    }
  }

  method LookupPath(payload: Payload, path: string) returns (v: Value)
    ensures v == Lookup(payload, path)
  {
    if path == "" {
      return Null;
    }
    var parts := Split(path, '.');
    v := Object(payload);
    for k := 0 to |parts|
      invariant Descend(v, parts[k..]) == Lookup(payload, path)
    {
      if !v.Object? {
        DescendNull(v, parts[k..]);
        return Null;
      }
      v := if parts[k] in v.fields then v.fields[parts[k]] else Null;
      assert parts[k..][1..] == parts[k + 1..];
    }
  }

  // A dotted path reaches the value its keys name one after the other; the one exception is the
  // single empty key, whose path is empty and reads as null.
  lemma {:induction false} LookupFollowsKeys(payload: Payload, keys: seq<string>)
    requires keys != [] && forall k :: 0 <= k < |keys| ==> '.' !in keys[k]
    ensures Lookup(payload, Join(keys, '.')) == if keys == [""] then Null else Descend(Object(payload), keys)
  {
    SplitOfJoin(keys, '.');
    if Join(keys, '.') == "" {
      assert keys == Split("", '.') == [""];
    }
  }

  // The value the keys lead to, one object field after the other: null as soon as one is missing.
  predicate LeadTo(v: Value, keys: seq<string>, w: Value)
    decreases keys
  {
    if keys == [] then w == v
    else if v.Object? && keys[0] in v.fields then LeadTo(v.fields[keys[0]], keys[1..], w)
    else w == Null
  }

  lemma {:induction false} DescendLeads(v: Value, keys: seq<string>, w: Value)
    ensures w == Descend(v, keys) <==> LeadTo(v, keys, w)
    decreases keys
  {
    if keys != [] {
      if v.Object? && keys[0] in v.fields {
        DescendLeads(v.fields[keys[0]], keys[1..], w);
      } else if |keys| > 1 {
        DescendNull(Null, keys[1..]);
      }
    }
  }

  // A dotted path is looked up along its keys.
  lemma {:induction false} PathLeads(payload: Payload, keys: seq<string>, w: Value)
    requires keys != [] && keys != [""] && forall k :: 0 <= k < |keys| ==> '.' !in keys[k]
    ensures w == Lookup(payload, Join(keys, '.')) <==> LeadTo(Object(payload), keys, w)
  {
    LookupFollowsKeys(payload, keys);
    DescendLeads(Object(payload), keys, w);
  }

  // ---- Comparing ----

  function ToNumber(f: Formats, v: Value): Result<Float> {
    match v
    case Number(n) => Ok(n)
    case Str(s) => f.parse(s)
    case _ => Err("not a number")
  }

  function ToString(f: Formats, v: Value): string {
    match v
    case Null => ""
    case Str(s) => s
    case Number(n) => f.format(n)
    case Bool(b) => if b then "true" else "false"
    case _ => f.sprint(v)
  }

  // Strips one matching pair of quotes.
  function Unquote(s: string): string {
    if |s| >= 2 && ((s[0] == '"' && s[|s| - 1] == '"') || (s[0] == '\'' && s[|s| - 1] == '\''))
    then s[1..|s| - 1] else s
  }

  // Every ordered comparison with a NaN is false.
  predicate FloatLess(a: Float, b: Float) {
    match (a, b)
    case (NaN, _) => false
    case (_, NaN) => false
    case (Finite(x), Finite(y)) => x < y
    case (NegInf, _) => b != NegInf
    case (Finite(_), _) => b.PosInf?
    case (PosInf, _) => false
  }

  predicate FloatEqual(a: Float, b: Float) {
    a == b && !a.NaN?
  }

  function NumericOp(op: string, a: Float, b: Float): Result<bool> {
    if op == "==" then Ok(FloatEqual(a, b))
    else if op == "!=" then Ok(!FloatEqual(a, b))
    else if op == ">" then Ok(FloatLess(b, a))
    else if op == "<" then Ok(FloatLess(a, b))
    else if op == ">=" then Ok(FloatLess(b, a) || FloatEqual(a, b))
    else if op == "<=" then Ok(FloatLess(a, b) || FloatEqual(a, b))
    else Err("unsupported operator")
  }

  function StringOp(op: string, a: string, b: string): Result<bool> {
    if op == "==" then Ok(a == b)
    else if op == "!=" then Ok(a != b)
    else if op == ">" then Ok(Less(b, a))
    else if op == "<" then Ok(Less(a, b))
    else if op == ">=" then Ok(Less(b, a) || a == b)
    else if op == "<=" then Ok(Less(a, b) || a == b)
    else Err("unsupported operator")
  }

  predicate Numeric(f: Formats, v: Value, lit: string) {
    f.parse(lit).Ok? && ToNumber(f, v).Ok?
  }

  // Numbers when both sides are numeric; booleans have only == and !=; strings otherwise.
  function Compare(f: Formats, v: Value, op: string, lit: string): Result<bool> {
    if Numeric(f, v, lit) && op in OPS then
      NumericOp(op, ToNumber(f, v).value, f.parse(lit).value)
    else if lit in {"true", "false"} && v.Bool? && op == "==" then
      Ok(v.b == (lit == "true"))
    else if lit in {"true", "false"} && v.Bool? && op == "!=" then
      Ok(v.b != (lit == "true"))
    else
      StringOp(op, ToString(f, v), Unquote(lit))
  }

  predicate NaNInvolved(f: Formats, v: Value, lit: string) {
    Numeric(f, v, lit) && (f.parse(lit).value.NaN? || ToNumber(f, v).value.NaN?)
  }

  ghost predicate Is(f: Formats, v: Value, op: string, lit: string) {
    Compare(f, v, op, lit) == Ok(true)
  }

  lemma BooleanAsString(f: Formats, v: Value, op: string, lit: string)
    requires lit in {"true", "false"} && v.Bool? && op in {"==", "!="} && !Numeric(f, v, lit)
    ensures Compare(f, v, op, lit) == StringOp(op, ToString(f, v), Unquote(lit))
  {
    assert lit[0] != '"' && lit[0] != '\'';
    assert |"true"| != |"false"|;
  }

  predicate ExactlyOne(a: bool, b: bool, c: bool) {
    (a && !b && !c) || (!a && b && !c) || (!a && !b && c)
  }

  lemma FloatTrichotomy(a: Float, b: Float)
    ensures ExactlyOne(FloatLess(a, b), FloatEqual(a, b), FloatLess(b, a)) <==> !a.NaN? && !b.NaN?
  {
  }

  // Every comparison is one of the six operations of an order on numbers or of the order on strings.
  lemma CompareIsOneOrder(f: Formats, v: Value, op: string, lit: string)
    requires op in OPS
    ensures Compare(f, v, op, lit) ==
            if Numeric(f, v, lit) then NumericOp(op, ToNumber(f, v).value, f.parse(lit).value)
            else StringOp(op, ToString(f, v), Unquote(lit))
  {
    if !Numeric(f, v, lit) && lit in {"true", "false"} && v.Bool? && op in {"==", "!="} {
      BooleanAsString(f, v, op, lit);
    }
  }

  // For every value and literal, whichever branch compares them, exactly one of <, == and > holds and the
  // other three are its complement and unions - precisely when no NaN takes part.
  lemma ComparisonTrichotomy(f: Formats, v: Value, lit: string)
    ensures ExactlyOne(Is(f, v, "<", lit), Is(f, v, "==", lit), Is(f, v, ">", lit)) <==> !NaNInvolved(f, v, lit)
    ensures Is(f, v, "!=", lit) <==> !Is(f, v, "==", lit)
    ensures Is(f, v, ">=", lit) <==> Is(f, v, ">", lit) || Is(f, v, "==", lit)
    ensures Is(f, v, "<=", lit) <==> Is(f, v, "<", lit) || Is(f, v, "==", lit)
  {
    forall op | op in OPS
      ensures Compare(f, v, op, lit) ==
              if Numeric(f, v, lit) then NumericOp(op, ToNumber(f, v).value, f.parse(lit).value)
              else StringOp(op, ToString(f, v), Unquote(lit))
    {
      CompareIsOneOrder(f, v, op, lit);
    }
    assert OPS[0] == "==" && OPS[1] == "!=" && OPS[2] == ">=" && OPS[3] == "<=" && OPS[4] == ">" && OPS[5] == "<";
    if Numeric(f, v, lit) {
      FloatTrichotomy(ToNumber(f, v).value, f.parse(lit).value);
    } else {
      LessTotal(ToString(f, v), Unquote(lit));
    }
  }

  // ---- Evaluating ----

  predicate Truthy(v: Value) {
    match v
    case Null => false
    case Bool(b) => b
    case Str(s) => s != ""
    case Number(n) => n != Finite(0.0)
    case _ => true
  }

  function EvalCondition(f: Formats, expr: string, payload: Payload): Result<bool> {
    var e := Trim(expr);
    if e == "" then Err("empty condition")
    else
      var p := SplitExpr(e);
      var v := Lookup(payload, p.path);
      if p.op == "" then Ok(Truthy(v)) else Compare(f, v, p.op, p.lit)
  }

  // How the engine reads a condition: an evaluation error counts as false.
  predicate Holds(f: Formats, expr: string, payload: Payload) {
    EvalCondition(f, expr, payload) == Ok(true)
  }

  // A blank condition is the only one that cannot be evaluated: nothing but white space.
  lemma OnlyBlankFails(f: Formats, expr: string, payload: Payload)
    ensures EvalCondition(f, expr, payload).Err? <==> forall c :: c in expr ==> IsSpace(c)
  {
    TrimBlank(expr);
    if Trim(expr) != "" {
      assert OPS == ["==", "!=", ">=", "<=", ">", "<"];
      SplitOnOp(Trim(expr), OPS);
    }
  }

  // A printed comparison means what it says: the value at the path compared with the literal.
  lemma EvalPrinted(f: Formats, p: Parts, payload: Payload)
    requires p.op in OPS && Trimmed(p.path) && Trimmed(p.lit) && p.path != "" && p.lit != ""
    requires Unambiguous(p)
    ensures EvalCondition(f, Print(p), payload) == Compare(f, Lookup(payload, p.path), p.op, p.lit)
  {
    var s := Print(p);
    assert s[0] == p.path[0] && s[|s| - 1] == p.lit[|p.lit| - 1];
    RoundTripExact(p);
  }

  // ---- Which way each comparison goes ----

  // The value is this finite number, or text that reads as it.
  predicate IsNumber(f: Formats, v: Value, x: real) {
    v == Number(Finite(x)) || (v.Str? && f.parse(v.s) == Ok(Finite(x)))
  }

  // Numbers compare as numbers.
  lemma {:induction false} NumbersCompare(f: Formats, v: Value, lit: string, x: real, y: real)
    requires IsNumber(f, v, x) && f.parse(lit) == Ok(Finite(y))
    ensures Is(f, v, "==", lit) <==> x == y
    ensures Is(f, v, "!=", lit) <==> x != y
    ensures Is(f, v, "<", lit) <==> x < y
    ensures Is(f, v, ">", lit) <==> x > y
    ensures Is(f, v, "<=", lit) <==> x <= y
    ensures Is(f, v, ">=", lit) <==> x >= y
  {
    assert OPS[0] == "==" && OPS[1] == "!=" && OPS[2] == ">=" && OPS[3] == "<=" && OPS[4] == ">" && OPS[5] == "<";
  }

  // Not a number compares with nothing, minus infinity is below and plus infinity above every other number.
  lemma {:induction false} ExtremesCompare(f: Formats, v: Value, lit: string, x: Float, y: Float)
    requires (v == Number(x) || (v.Str? && f.parse(v.s) == Ok(x))) && f.parse(lit) == Ok(y)
    ensures x.NaN? || y.NaN? ==>
              !Is(f, v, "<", lit) && !Is(f, v, "==", lit) && !Is(f, v, ">", lit) && Is(f, v, "!=", lit)
    ensures !x.NaN? && !y.NaN? && x != y && (x.NegInf? || y.PosInf?) ==> Is(f, v, "<", lit) && !Is(f, v, ">", lit)
    ensures !x.NaN? && !y.NaN? && x != y && (x.PosInf? || y.NegInf?) ==> Is(f, v, ">", lit) && !Is(f, v, "<", lit)
    ensures !x.NaN? && x == y ==> Is(f, v, "==", lit)
  {
    assert OPS[0] == "==" && OPS[1] == "!=" && OPS[2] == ">=" && OPS[3] == "<=" && OPS[4] == ">" && OPS[5] == "<";
  }

  // The text the literal stands for, in quotes of either kind or in none.
  predicate StandsFor(lit: string, text: string) {
    || lit == ['"'] + text + ['"']
    || lit == ['\''] + text + ['\'']
    || (lit == text && (|lit| < 2 || lit[0] !in {'"', '\''} || lit[0] != lit[|lit| - 1]))
  }

  lemma UnquoteStandsFor(lit: string, text: string)
    requires StandsFor(lit, text)
    ensures Unquote(lit) == text
  {
  }

  // Texts that are not both numbers compare as texts, by the first character in which they differ.
  lemma {:induction false} TextsCompare(f: Formats, s: string, lit: string, text: string)
    requires !(f.parse(lit).Ok? && f.parse(s).Ok?) && StandsFor(lit, text)
    ensures Is(f, Str(s), "==", lit) <==> s == text
    ensures Is(f, Str(s), "<", lit) <==> Before(s, text)
    ensures Is(f, Str(s), ">", lit) <==> Before(text, s)
  {
    UnquoteStandsFor(lit, text);
    LessIsBefore(s, text);
    LessIsBefore(text, s);
  }

  // Booleans are equal to their own names, and a missing value to the empty text.
  lemma {:induction false} OthersCompare(f: Formats, b: bool, lit: string, text: string)
    ensures lit in {"true", "false"} ==> (Is(f, Bool(b), "==", lit) <==> b == (lit == "true"))
    ensures StandsFor(lit, text) ==> (Is(f, Null, "==", lit) <==> text == "")
  {
    if StandsFor(lit, text) {
      UnquoteStandsFor(lit, text);
    }
  }

  // A bare path holds unless its value is missing, false, zero or empty.
  lemma {:induction false} BarePathHolds(f: Formats, path: string, payload: Payload)
    requires Trimmed(path) && path != "" && OperatorFree(path)
    ensures Holds(f, path, payload) <==>
            Lookup(payload, path) !in {Null, Bool(false), Str(""), Number(Finite(0.0))}
  {
    forall k | 0 <= k < |OPS| ensures !Contains(path, OPS[k]) {
      OperatorFreeAvoids(path, OPS[k]);
    }
    assert OPS + [] == OPS;
    SplitOnSkips(path, OPS, []);
  }
}
