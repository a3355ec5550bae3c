/** The n8n → LangGraph helpers of `utils/n8n2langgraph.py`: name mangling, removal of n8n
    `{{ … }}` expressions, the split of an HTTP tool node's query parameters into fixed,
    secret and query parameters, what the generated tool sends and answers, and the node
    checks of the graph builder. The workflow JSON is taken already decoded into the fields
    the code reads; the network, the environment and the LLM are parameters. */
module N8nUtils {
  import opened Wrappers
  import opened Strs
  import opened PyDict

  // ---------------------------------------------------------------- the workflow

  /** A JSON value the code only passes on: missing or `null`, a string, or anything else,
      given by its `str()` text and its truthiness. */
  datatype Value = Null | Str(s: string) | NonString(text: string, truthy: bool)

  /** One entry of `parameters.queryParameters.parameters`. */
  datatype QueryParam = QueryParam(name: Option<string>, value: Value)

  /** `parameters.model` of a chat-model node: missing, an object with `value`/`model`
      entries, or a bare string (which has no `.get`). */
  datatype ModelParam =
    | ModelMissing
    | ModelObject(value: Option<string>, model: Option<string>)
    | ModelText(text: string)

  /** A workflow node; `None` stands for a missing key. */
  datatype Node = Node(
    nodeType: Option<string>,
    name: Option<string>,
    id: Option<string>,
    toolDescription: Option<string>,
    url: Option<string>,
    httpMethod: Option<string>,
    queryParams: seq<QueryParam>,
    model: ModelParam)

  const HttpToolType := "n8n-nodes-base.httpRequestTool"
  const DefaultModel := "gpt-4.1-mini"

  /** Python's `a or b` for an optional string: the empty string is falsy too. */
  function Or(a: Option<string>, b: string): string {
    if a.Some? && a.value != "" then a.value else b
  }

  /** `n.get("type", "")` */
  function TypeOf(n: Node): string {
    n.nodeType.GetOr("")
  }

  predicate IsChatModel(n: Node) {
    EndsWith(TypeOf(n), ".lmChatOpenAi")
  }

  predicate IsHttpTool(n: Node) {
    n.nodeType == Some(HttpToolType)
  }

  predicate IsChatTrigger(n: Node) {
    Contains(TypeOf(n), "chatTrigger")
  }

  /** `next((n for n in nodes if p(n)), None)`, as an index. */
  function First(nodes: seq<Node>, p: Node -> bool): (r: Option<nat>)
    ensures r.None? <==> forall i :: 0 <= i < |nodes| ==> !p(nodes[i])
    ensures r.Some? ==> (r.value < |nodes| && p(nodes[r.value])
      && forall i :: 0 <= i < r.value ==> !p(nodes[i]))
  {
    if nodes == [] then None
    else if p(nodes[0]) then Some(0)
    else
      match First(nodes[1..], p)
      case None => None
      case Some(i) => Some(i + 1)
  }

  /** The message of the `AttributeError` raised by `.get` on a value of type `t`. */
  function NoGet(t: string): string {
    "'" + t + "' object has no attribute 'get'"
  }

  /** `build_llm`: the model object's `value`, else its `model`, else the default. */
  function PickModel(p: ModelParam): (r: Result<string>)
    ensures r.Err? <==> p.ModelText?
    ensures r.Ok? ==> r.value != ""
    ensures p.ModelObject? && p.value.Some? && p.value.value != "" ==> r == Ok(p.value.value)
  {
    match p
    case ModelMissing => Ok(DefaultModel)
    case ModelObject(value, model) => Ok(Or(value, Or(model, DefaultModel)))
    case ModelText(_) => Err(NoGet("str"))
  }

  // ---------------------------------------------------------------- names

  predicate IsAlnum(c: char) {
    ('A' <= c <= 'Z') || ('a' <= c <= 'z') || ('0' <= c <= '9')
  }

  /** A character of a tool function name: `[a-z0-9_]`. */
  predicate IsIdentChar(c: char) {
    ('a' <= c <= 'z') || ('0' <= c <= '9') || c == '_'
  }

  predicate IsIdent(s: string) {
    forall i :: 0 <= i < |s| ==> IsIdentChar(s[i])
  }

  /** One character of `re.sub(r"[^A-Za-z0-9_]", "_", s).lower()`. */
  function SanitizeChar(c: char): char {
    if IsAlnum(c) || c == '_' then LowerChar(c) else '_'
  }

  /** `re.sub(r"[^A-Za-z0-9_]", "_", name.strip()).lower() or fallback`: the tool name of
      `build_http_tool` (fallback "http_tool") and `_sanitize_name` (fallback "tool"). */
  function Sanitize(name: string, fallback: string): string {
    var s := Strip(name);
    if s == [] then fallback else seq(|s|, i requires 0 <= i < |s| => SanitizeChar(s[i]))
  }

  /** A blank name gives the fallback; otherwise one character per character of the
      stripped name, letters lower-cased, digits and `_` kept, everything else `_`. */
  lemma SanitizeSpec(name: string, fallback: string)
    ensures IsBlank(name) ==> Sanitize(name, fallback) == fallback
    ensures !IsBlank(name) ==> |Sanitize(name, fallback)| == |Strip(name)|
    ensures !IsBlank(name) ==> IsIdent(Sanitize(name, fallback))
    ensures !IsBlank(name) ==> forall i :: 0 <= i < |Strip(name)| && IsAlnum(Strip(name)[i]) ==>
      Sanitize(name, fallback)[i] == LowerChar(Strip(name)[i])
  {
    StripEmptyIffBlank(name);
  }

  /** With a non-empty fallback of the same alphabet, the name is never empty. */
  lemma SanitizeIdent(name: string, fallback: string)
    requires fallback != [] && IsIdent(fallback)
    ensures Sanitize(name, fallback) != [] && IsIdent(Sanitize(name, fallback))
  {
    SanitizeSpec(name, fallback);
    StripEmptyIffBlank(name);
  }

  /** A sanitized name is a fixed point: sanitizing it again changes nothing. */
  lemma SanitizeIdempotent(name: string, fallback: string)
    requires fallback != [] && IsIdent(fallback)
    ensures Sanitize(Sanitize(name, fallback), fallback) == Sanitize(name, fallback)
  {
    var r := Sanitize(name, fallback);
    SanitizeSpec(name, fallback);
    StripEmptyIffBlank(name);
    assert r != [];
    assert IsIdent(r);
    assert IsStripped(r) by {
      assert IsIdentChar(r[0]) && IsIdentChar(r[|r| - 1]);
    }
    StripOfStripped(r);
    assert Sanitize(r, fallback) == r;
  }

  /** `re.sub(r"[^A-Za-z0-9]+", "_", s)`: every maximal run of other characters becomes a
      single `_`. */
  function Collapse(s: string): string
    decreases |s|
  {
    if s == [] then []
    else
      var init := s[..|s| - 1];
      var c := s[|s| - 1];
      Collapse(init) + (if IsAlnum(c) then [c] else if init != [] && !IsAlnum(init[|init| - 1]) then [] else "_")
  }

  /** Python's `s.lstrip("_")` and `s.rstrip("_")` */
  function TrimLeftUnderscores(s: string): (r: string)
    ensures |r| <= |s| && s[|s| - |r|..] == r
    ensures r != [] ==> r[0] != '_'
    ensures forall i :: 0 <= i < |s| - |r| ==> s[i] == '_'
  {
    if s != [] && s[0] == '_' then TrimLeftUnderscores(s[1..]) else s
  }

  function TrimRightUnderscores(s: string): (r: string)
    ensures |r| <= |s| && s[..|r|] == r
    ensures r != [] ==> r[|r| - 1] != '_'
    ensures forall i :: |r| <= i < |s| ==> s[i] == '_'
  {
    if s != [] && s[|s| - 1] == '_' then TrimRightUnderscores(s[..|s| - 1]) else s
  }

  /** `snake_env`: the prefix of the environment variables of a tool's secrets. */
  function SnakeEnv(name: string): string {
    var base := TrimRightUnderscores(TrimLeftUnderscores(Upper(Collapse(name))));
    if base == [] then "HTTP_TOOL" else base
  }

  /** A character of an environment variable name as `snake_env` builds it. */
  predicate IsEnvChar(c: char) {
    ('A' <= c <= 'Z') || ('0' <= c <= '9') || c == '_'
  }

  predicate NoDoubleUnderscore(s: string) {
    forall i :: 0 <= i < |s| - 1 ==> !(s[i] == '_' && s[i + 1] == '_')
  }

  /** `Collapse` keeps letters and digits, writes `_` for the rest, never two in a row, and
      ends in `_` exactly when the input ends in a run of other characters. */
  lemma {:induction false} CollapseShape(s: string)
    ensures forall i :: 0 <= i < |Collapse(s)| ==> IsAlnum(Collapse(s)[i]) || Collapse(s)[i] == '_'
    ensures NoDoubleUnderscore(Collapse(s))
    ensures (Collapse(s) != [] && Collapse(s)[|Collapse(s)| - 1] == '_') <==> (s != [] && !IsAlnum(s[|s| - 1]))
    ensures Collapse(s) == [] <==> s == []
  {
    if s != [] {
      var init := s[..|s| - 1];
      CollapseShape(init);
    }
  }

  /** The letters and digits of a string, in order. */
  function Alnums(s: string): string {
    if s == [] then []
    else Alnums(s[..|s| - 1]) + (if IsAlnum(s[|s| - 1]) then [s[|s| - 1]] else [])
  }

  /** `Collapse` keeps every letter and digit, in order. */
  lemma {:induction false} CollapseAlnums(s: string)
    ensures Alnums(Collapse(s)) == Alnums(s)
  {
    if s != [] {
      var init := s[..|s| - 1];
      var c := s[|s| - 1];
      var tail := if IsAlnum(c) then [c] else if init != [] && !IsAlnum(init[|init| - 1]) then [] else "_";
      CollapseAlnums(init);
      AlnumsAppend(Collapse(init), tail);
    }
  }

  lemma {:induction false} AlnumsAppend(a: string, b: string)
    ensures Alnums(a + b) == Alnums(a) + Alnums(b)
  {
    if b != [] {
      AlnumsAppend(a, b[..|b| - 1]);
      assert (a + b)[..|a + b| - 1] == a + b[..|b| - 1];
    } else {
      assert a + b == a;
    }
  }

  lemma UpperShape(c: string)
    requires forall i :: 0 <= i < |c| ==> IsAlnum(c[i]) || c[i] == '_'
    requires NoDoubleUnderscore(c)
    ensures forall i :: 0 <= i < |Upper(c)| ==> IsEnvChar(Upper(c)[i])
    ensures NoDoubleUnderscore(Upper(c))
  {
    var u := Upper(c);
    forall i | 0 <= i < |u| - 1 ensures !(u[i] == '_' && u[i + 1] == '_') {
      assert u[i] == '_' ==> c[i] == '_';
      assert u[i + 1] == '_' ==> c[i + 1] == '_';
    }
  }

  lemma TrimShape(u: string)
    requires forall i :: 0 <= i < |u| ==> IsEnvChar(u[i])
    requires NoDoubleUnderscore(u)
    ensures var base := TrimRightUnderscores(TrimLeftUnderscores(u));
      (forall i :: 0 <= i < |base| ==> IsEnvChar(base[i])) && NoDoubleUnderscore(base)
      && (base != [] ==> base[0] != '_' && base[|base| - 1] != '_')
  {
    var l := TrimLeftUnderscores(u);
    SliceShape(u, |u| - |l|, |u|);
    SliceShape(l, 0, |TrimRightUnderscores(l)|);
  }

  lemma SliceShape(u: string, a: nat, b: nat)
    requires a <= b <= |u|
    requires forall i :: 0 <= i < |u| ==> IsEnvChar(u[i])
    requires NoDoubleUnderscore(u)
    ensures forall i :: 0 <= i < |u[a..b]| ==> IsEnvChar(u[a..b][i])
    ensures NoDoubleUnderscore(u[a..b])
  {
    assert forall i :: 0 <= i < b - a ==> u[a..b][i] == u[a + i];
  }

  /** `snake_env` gives a non-empty name of `[A-Z0-9_]` that neither starts nor ends with `_`
      and has no two `_` in a row. */
  lemma SnakeEnvShape(name: string)
    ensures SnakeEnv(name) != []
    ensures forall i :: 0 <= i < |SnakeEnv(name)| ==> IsEnvChar(SnakeEnv(name)[i])
    ensures SnakeEnv(name)[0] != '_' && SnakeEnv(name)[|SnakeEnv(name)| - 1] != '_'
    ensures NoDoubleUnderscore(SnakeEnv(name))
  {
    var c := Collapse(name);
    CollapseShape(name);
    var u := Upper(c);
    UpperShape(c);
    var base := TrimRightUnderscores(TrimLeftUnderscores(u));
    TrimShape(u);
    assert SnakeEnv(name) == if base == [] then "HTTP_TOOL" else base;
    if base == [] {
      HttpToolLiteralShape();
    }
  }

  lemma HttpToolLiteralShape()
    ensures forall i :: 0 <= i < |"HTTP_TOOL"| ==> IsEnvChar("HTTP_TOOL"[i])
    ensures NoDoubleUnderscore("HTTP_TOOL")
    ensures "HTTP_TOOL"[0] != '_' && "HTTP_TOOL"[|"HTTP_TOOL"| - 1] != '_'
  {
    var r := "HTTP_TOOL";
    assert r[4] == '_' && r[3] == 'P' && r[5] == 'T';
  }

  /** Letters and digits are unchanged by upper-casing (as letters and digits). */
  lemma {:induction false} AlnumsUpper(s: string)
    ensures Alnums(Upper(s)) == Upper(Alnums(s))
  {
    if s != [] {
      AlnumsUpper(s[..|s| - 1]);
      assert Upper(s)[..|s| - 1] == Upper(s[..|s| - 1]);
      var c := s[|s| - 1];
      assert IsAlnum(UpperChar(c)) <==> IsAlnum(c);
      var a := Alnums(s[..|s| - 1]);
      var t := if IsAlnum(c) then [c] else [];
      assert Upper(a + t) == Upper(a) + Upper(t);
    }
  }

  /** Trimming `_` keeps every letter and digit. */
  lemma {:induction false} AlnumsTrimLeft(s: string)
    ensures Alnums(TrimLeftUnderscores(s)) == Alnums(s)
    decreases |s|
  {
    if s != [] && s[0] == '_' {
      AlnumsTrimLeft(s[1..]);
      AlnumsDropUnderscore(s);
    }
  }

  /** A leading `_` is not a letter or digit. */
  lemma AlnumsDropUnderscore(s: string)
    requires s != [] && s[0] == '_'
    ensures Alnums(s) == Alnums(s[1..])
  {
    var rest := s[1..];
    var head: string := "_";
    assert head + rest == s;
    AlnumsAppend(head, rest);
    assert Alnums(head) == [] by { assert head[..0] == []; }
  }

  lemma {:induction false} AlnumsTrimRight(s: string)
    ensures Alnums(TrimRightUnderscores(s)) == Alnums(s)
    decreases |s|
  {
    if s != [] && s[|s| - 1] == '_' {
      AlnumsTrimRight(s[..|s| - 1]);
    }
  }

  /** Apart from the `HTTP_TOOL` fallback, `snake_env` keeps every letter and digit of the
      name, upper-cased and in order: only the separators change. */
  lemma SnakeEnvAlnums(name: string)
    ensures SnakeEnv(name) == "HTTP_TOOL" || Alnums(SnakeEnv(name)) == Upper(Alnums(name))
    ensures Alnums(name) != [] ==> Alnums(SnakeEnv(name)) == Upper(Alnums(name))
  {
    var c := Collapse(name);
    var u := Upper(c);
    var l := TrimLeftUnderscores(u);
    var base := TrimRightUnderscores(l);
    CollapseAlnums(name);
    AlnumsUpper(c);
    AlnumsTrimLeft(u);
    AlnumsTrimRight(l);
    assert Alnums(base) == Upper(Alnums(name));
    if base == [] {
      assert Alnums(base) == [];
    }
  }

  // ---------------------------------------------------------------- n8n expressions

  /** Where the lazy `.*?` of `\{\{.*?\}\}` stops when the opening braces end just before
      `k`: the first `}}` at or after `k`, provided no newline comes before it (`.` does not
      match a newline). */
  function CloseAt(s: string, k: nat): (r: Option<nat>)
    ensures r.Some? ==> (k <= r.value && r.value + 2 <= |s| && s[r.value] == '}' && s[r.value + 1] == '}'
      && '\n' !in s[k..r.value]
      && forall m :: k <= m < r.value ==> !(s[m] == '}' && s[m + 1] == '}'))
    ensures r.None? ==> forall j :: k <= j && j + 2 <= |s| && s[j] == '}' && s[j + 1] == '}' ==> '\n' in s[k..j]
    decreases |s| - k
  {
    if k + 2 > |s| then None
    else if s[k] == '}' && s[k + 1] == '}' then Some(k)
    else if s[k] == '\n' then None
    else CloseAt(s, k + 1)
  }

  /** `re.sub(r"\{\{.*?\}\}", "", s)`: scanning from the left, each `{{` that has a closing
      `}}` on the same line is removed up to the first such `}}`. */
  function RemoveExprs(s: string): (r: string)
    ensures |r| <= |s|
    decreases |s|
  {
    if |s| >= 2 && s[0] == '{' && s[1] == '{' && CloseAt(s, 2).Some? then
      RemoveExprs(s[CloseAt(s, 2).value + 2..])
    else if s == [] then []
    else [s[0]] + RemoveExprs(s[1..])
  }

  /** `strip_n8n_expr` (and `_strip_n8n_expr`) on a string. */
  function StripExpr(s: string): string {
    Strip(RemoveExprs(s))
  }

  /** `strip_n8n_expr(v)`: strings lose their expressions; other values pass unchanged. */
  function StripValue(v: Value): Value {
    match v
    case Str(s) => Str(StripExpr(s))
    case _ => v
  }

  /** No `{{` anywhere. */
  predicate NoOpen(s: string) {
    forall i :: 0 <= i < |s| - 1 ==> !(s[i] == '{' && s[i + 1] == '{')
  }

  /** Text without `{{` has no expression to remove: only the outer whitespace goes. */
  lemma {:induction false} RemoveExprsPlain(s: string)
    requires NoOpen(s)
    ensures RemoveExprs(s) == s
    ensures StripExpr(s) == Strip(s)
  {
    if s != [] {
      RemoveExprsPlain(s[1..]);
    }
  }

  lemma {:induction false} CloseAtFind(s: string, k: nat, j: nat)
    requires k <= j && j + 2 <= |s| && s[j] == '}' && s[j + 1] == '}'
    requires forall m :: k <= m < j ==> s[m] != '\n' && !(s[m] == '}' && s[m + 1] == '}')
    ensures CloseAt(s, k) == Some(j)
    decreases j - k
  {
    if k < j {
      CloseAtFind(s, k + 1, j);
    }
  }

  /** An expression at the very start is removed whole. */
  lemma RemoveExprsLeading(b: string, c: string)
    requires '\n' !in b && (b == [] || b[|b| - 1] != '}')
    requires forall i :: 0 <= i < |b| - 1 ==> !(b[i] == '}' && b[i + 1] == '}')
    ensures RemoveExprs("{{" + b + "}}" + c) == RemoveExprs(c)
  {
    var s := "{{" + b + "}}" + c;
    forall m | 2 <= m < |b| + 2 ensures s[m] != '\n' && !(s[m] == '}' && s[m + 1] == '}') {
      assert s[m] == b[m - 2];
      if m + 1 < |b| + 2 {
        assert s[m + 1] == b[m - 1];
      }
    }
    CloseAtFind(s, 2, |b| + 2);
    assert s[|b| + 4..] == c;
  }

  /** A character that does not open an expression is kept. */
  lemma RemoveExprsKeep(s: string)
    requires s != [] && !(|s| >= 2 && s[0] == '{' && s[1] == '{')
    ensures RemoveExprs(s) == [s[0]] + RemoveExprs(s[1..])
  {
  }

  lemma NoOpenTail(a: string)
    requires a != [] && NoOpen(a)
    ensures NoOpen(a[1..])
  {
    var a' := a[1..];
    forall i | 0 <= i < |a'| - 1 ensures !(a'[i] == '{' && a'[i + 1] == '{') {
      assert a'[i] == a[i + 1] && a'[i + 1] == a[i + 2];
    }
  }

  /** Text that opens no expression, and does not end in `{`, is kept whatever follows it. */
  lemma {:induction false} RemoveExprsPrefix(a: string, rest: string)
    requires NoOpen(a) && (a == [] || a[|a| - 1] != '{')
    ensures RemoveExprs(a + rest) == a + RemoveExprs(rest)
  {
    if a != [] {
      var s := a + rest;
      var a' := a[1..];
      assert s[0] == a[0];
      assert s[1..] == a' + rest;
      assert |a| >= 2 ==> s[1] == a[1];
      RemoveExprsKeep(s);
      NoOpenTail(a);
      RemoveExprsPrefix(a', rest);
      assert a == [a[0]] + a';
    } else {
      assert a + rest == rest;
    }
  }

  /** A well-formed expression on one line is removed whole, with the text before it kept:
      `a{{b}}c` becomes `a` followed by what `c` becomes. */
  lemma RemoveExprsOne(a: string, b: string, c: string)
    requires NoOpen(a) && (a == [] || a[|a| - 1] != '{')
    requires '\n' !in b && (b == [] || b[|b| - 1] != '}')
    requires forall i :: 0 <= i < |b| - 1 ==> !(b[i] == '}' && b[i + 1] == '}')
    ensures RemoveExprs(a + "{{" + b + "}}" + c) == a + RemoveExprs(c)
  {
    var rest := "{{" + b + "}}" + c;
    assert a + "{{" + b + "}}" + c == a + rest;
    RemoveExprsPrefix(a, rest);
    RemoveExprsLeading(b, c);
  }

  /** Non-string values are returned unchanged. */
  lemma StripValueSpec(v: Value)
    ensures !v.Str? ==> StripValue(v) == v
    ensures v.Str? ==> StripValue(v).Str? && |StripValue(v).s| <= |v.s|
  {
    if v.Str? {
      StripIsSlice(RemoveExprs(v.s));
    }
  }

  // ---------------------------------------------------------------- query parameters

  /** `k.lower() in {"q", "query"}` */
  predicate IsQueryName(k: string) {
    Lower(k) == "q" || Lower(k) == "query"
  }

  /** `any(t in k.lower() for t in ["key", "token", "secret", "apikey", "api_key"])` */
  predicate IsSecretName(k: string) {
    var l := Lower(k);
    Contains(l, "key") || Contains(l, "token") || Contains(l, "secret") || Contains(l, "apikey")
    || Contains(l, "api_key")
  }

  /** The last two markers add nothing: both contain "key". */
  lemma SecretNameMarkers(k: string)
    ensures IsSecretName(k) <==> Contains(Lower(k), "key") || Contains(Lower(k), "token") || Contains(Lower(k), "secret")
  {
    var l := Lower(k);
    if Contains(l, "apikey") {
      var i: nat :| ContainsAt(l, "apikey", i);
      assert l[i + 3..i + 6] == "apikey"[3..];
      assert ContainsAt(l, "key", i + 3);
    }
    if Contains(l, "api_key") {
      var i: nat :| ContainsAt(l, "api_key", i);
      assert l[i + 4..i + 7] == "api_key"[4..];
      assert ContainsAt(l, "key", i + 4);
    }
  }

  /** The query parameters of a tool node, sorted the way both converters sort them:
      `fixed` values sent as they are, `secrets` pairs of a name and the environment variable
      that supplies it, and the name under which the user's query is sent. */
  datatype Classification = Classification(fixed: Dict<Value>, secrets: seq<(string, string)>, query: Option<string>)

  /** Whether a parameter is passed over: one without a name always; one with an empty name
      only where the loop tests `not k` rather than `k is None`. */
  predicate Skipped(name: Option<string>, skipEmpty: bool) {
    name.None? || (skipEmpty && name.value == "")
  }

  /** A parameter that is not passed over, and its name. */
  predicate Named(p: QueryParam, skipEmpty: bool, k: string) {
    !Skipped(p.name, skipEmpty) && p.name == Some(k)
  }

  function ClassifyStep(c: Classification, p: QueryParam, skipEmpty: bool, prefix: string): Classification {
    if Skipped(p.name, skipEmpty) then c
    else
      var k := p.name.value;
      if IsQueryName(k) then c.(query := Some(k))
      else if IsSecretName(k) then c.(secrets := c.secrets + [(k, prefix + "_" + Upper(k))])
      else c.(fixed := Put(c.fixed, k, StripValue(p.value)))
  }

  /** The classification loop as a fold over the parameters, in order. */
  function Classify(qp: seq<QueryParam>, skipEmpty: bool, prefix: string): Classification {
    if qp == [] then Classification([], [], None)
    else ClassifyStep(Classify(qp[..|qp| - 1], skipEmpty, prefix), qp[|qp| - 1], skipEmpty, prefix)
  }

  /** The loop of `build_http_tool` (and of `_convert`) over the query parameters. */
  method ClassifyParams(qp: seq<QueryParam>, skipEmpty: bool, prefix: string) returns (c: Classification)
    ensures c == Classify(qp, skipEmpty, prefix)
  {
    c := Classification([], [], None);
    var i := 0;
    while i < |qp|
      invariant 0 <= i <= |qp|
      invariant c == Classify(qp[..i], skipEmpty, prefix)
    {
      var p := qp[i];
      assert qp[..i + 1][..i] == qp[..i];
      if !Skipped(p.name, skipEmpty) {
        var k := p.name.value;
        var v := StripValue(p.value);
        if IsQueryName(k) {
          c := c.(query := Some(k));
        } else if IsSecretName(k) {
          c := c.(secrets := c.secrets + [(k, prefix + "_" + Upper(k))]);
        } else {
          c := c.(fixed := Put(c.fixed, k, v));
        }
      }
      i := i + 1;
    }
    assert qp[..i] == qp;
  }

  /** The query name is the name of the last query-like parameter, and there is none exactly
      when no parameter is query-like. */
  lemma {:induction false} ClassifyQueryNone(qp: seq<QueryParam>, skipEmpty: bool, prefix: string)
    ensures Classify(qp, skipEmpty, prefix).query.None?
      <==> forall i :: 0 <= i < |qp| && !Skipped(qp[i].name, skipEmpty) ==> !IsQueryName(qp[i].name.value)
  {
    if qp != [] {
      var init := qp[..|qp| - 1];
      var p := qp[|qp| - 1];
      ClassifyQueryNone(init, skipEmpty, prefix);
      var c0 := Classify(init, skipEmpty, prefix);
      var c := Classify(qp, skipEmpty, prefix);
      assert forall i :: 0 <= i < |init| ==> init[i] == qp[i];
      if Skipped(p.name, skipEmpty) || !IsQueryName(p.name.value) {
        assert c.query == c0.query;
      } else {
        assert c.query.Some?;
        assert !Skipped(qp[|qp| - 1].name, skipEmpty) && IsQueryName(qp[|qp| - 1].name.value);
      }
    }
  }

  lemma {:induction false} ClassifyQueryLast(qp: seq<QueryParam>, skipEmpty: bool, prefix: string, i: nat)
    requires i < |qp| && !Skipped(qp[i].name, skipEmpty) && IsQueryName(qp[i].name.value)
    requires forall j :: i < j < |qp| && !Skipped(qp[j].name, skipEmpty) ==> !IsQueryName(qp[j].name.value)
    ensures Classify(qp, skipEmpty, prefix).query == qp[i].name
  {
    var init := qp[..|qp| - 1];
    if i < |qp| - 1 {
      ClassifyQueryLast(init, skipEmpty, prefix, i);
    }
  }

  /** A name is a fixed parameter exactly when some parameter of that name is neither
      query-like nor secret. */
  lemma {:induction false} ClassifyFixedKeys(qp: seq<QueryParam>, skipEmpty: bool, prefix: string, k: string)
    ensures Get(Classify(qp, skipEmpty, prefix).fixed, k).None?
      <==> forall i :: 0 <= i < |qp| && Named(qp[i], skipEmpty, k) ==> IsQueryName(k) || IsSecretName(k)
  {
    if qp != [] {
      var init := qp[..|qp| - 1];
      var p := qp[|qp| - 1];
      ClassifyFixedKeys(init, skipEmpty, prefix, k);
      var c0 := Classify(init, skipEmpty, prefix);
      var c := Classify(qp, skipEmpty, prefix);
      assert forall i :: 0 <= i < |init| ==> init[i] == qp[i];
      if Skipped(p.name, skipEmpty) || IsQueryName(p.name.value) || IsSecretName(p.name.value) {
        assert c.fixed == c0.fixed;
      } else if p.name.value == k {
        assert Get(c.fixed, k).Some?;
      } else {
        assert Get(c.fixed, k) == Get(c0.fixed, k);
      }
    }
  }

  /** The value of a fixed parameter is that of the last parameter of its name, with its
      expressions removed. */
  lemma {:induction false} ClassifyFixedLast(qp: seq<QueryParam>, skipEmpty: bool, prefix: string, k: string, i: nat)
    requires i < |qp| && Named(qp[i], skipEmpty, k) && !IsQueryName(k) && !IsSecretName(k)
    requires forall j :: i < j < |qp| ==> !Named(qp[j], skipEmpty, k)
    ensures Get(Classify(qp, skipEmpty, prefix).fixed, k) == Some(StripValue(qp[i].value))
  {
    var init := qp[..|qp| - 1];
    var p := qp[|qp| - 1];
    if i < |qp| - 1 {
      ClassifyFixedLast(init, skipEmpty, prefix, k, i);
      var c0 := Classify(init, skipEmpty, prefix);
      var c := Classify(qp, skipEmpty, prefix);
      if !Skipped(p.name, skipEmpty) && !IsQueryName(p.name.value) && !IsSecretName(p.name.value) {
        assert p.name.value != k;
        assert Get(c.fixed, k) == Get(c0.fixed, k);
      }
    }
  }

  /** Every pair names a secret, non-query parameter and the variable `PREFIX_NAME`. */
  predicate SecretPairs(s: seq<(string, string)>, prefix: string) {
    forall j :: 0 <= j < |s| ==> IsSecretName(s[j].0) && !IsQueryName(s[j].0) && s[j].1 == prefix + "_" + Upper(s[j].0)
  }

  /** Every secret is a secret, non-query parameter, read from the variable `PREFIX_NAME`. */
  lemma {:induction false} ClassifySecretsSound(qp: seq<QueryParam>, skipEmpty: bool, prefix: string)
    ensures SecretPairs(Classify(qp, skipEmpty, prefix).secrets, prefix)
  {
    if qp != [] {
      var init := qp[..|qp| - 1];
      ClassifySecretsSound(init, skipEmpty, prefix);
      var s0 := Classify(init, skipEmpty, prefix).secrets;
      var s := Classify(qp, skipEmpty, prefix).secrets;
      var p := qp[|qp| - 1];
      if !Skipped(p.name, skipEmpty) && !IsQueryName(p.name.value) && IsSecretName(p.name.value) {
        assert s == s0 + [(p.name.value, prefix + "_" + Upper(p.name.value))];
      } else {
        assert s == s0;
      }
    }
  }

  /** Every secret, non-query parameter is among the secrets. */
  lemma {:induction false} ClassifySecretsComplete(qp: seq<QueryParam>, skipEmpty: bool, prefix: string, i: nat)
    requires i < |qp| && !Skipped(qp[i].name, skipEmpty)
    requires !IsQueryName(qp[i].name.value) && IsSecretName(qp[i].name.value)
    ensures exists j :: (0 <= j < |Classify(qp, skipEmpty, prefix).secrets|
      && Classify(qp, skipEmpty, prefix).secrets[j].0 == qp[i].name.value)
  {
    var init := qp[..|qp| - 1];
    var s := Classify(qp, skipEmpty, prefix).secrets;
    if i < |qp| - 1 {
      ClassifySecretsComplete(init, skipEmpty, prefix, i);
      var s0 := Classify(init, skipEmpty, prefix).secrets;
      var j :| 0 <= j < |s0| && s0[j].0 == qp[i].name.value;
      assert s[j] == s0[j];
    } else {
      assert s[|s| - 1].0 == qp[i].name.value;
    }
  }

  // ---------------------------------------------------------------- build_http_tool

  /** What `build_http_tool` closes over. */
  datatype HttpTool = HttpTool(
    toolName: string,
    desc: string,
    url: Option<string>,
    httpMethod: string,
    fixed: Dict<Value>,
    keyEnv: Dict<string>,
    queryName: Option<string>)

  const NotSubscriptable := "'NoneType' object is not subscriptable"

  /** `node.get("name") or f"http_tool_{node.get('id')[:6]}"`; slicing a missing id raises. */
  function ToolNodeName(n: Node): Result<string> {
    if n.name.Some? && n.name.value != "" then Ok(n.name.value)
    else if n.id.None? then Err(NotSubscriptable)
    else Ok("http_tool_" + n.id.value[..if |n.id.value| < 6 then |n.id.value| else 6])
  }

  function HttpToolOf(n: Node): Result<HttpTool> {
    var name :- ToolNodeName(n);
    var c := Classify(n.queryParams, false, SnakeEnv(name));
    Ok(HttpTool(Sanitize(name, "http_tool"), Or(n.toolDescription, "HTTP request tool"), n.url,
      n.httpMethod.GetOr("GET"), c.fixed, FromPairs(c.secrets), c.query))
  }

  /** `build_http_tool` */
  method BuildHttpTool(n: Node) returns (r: Result<HttpTool>)
    ensures r == HttpToolOf(n)
  {
    var name := ToolNodeName(n);
    if name.Err? {
      return Err(name.error);
    }
    var c := ClassifyParams(n.queryParams, false, SnakeEnv(name.value));
    r := Ok(HttpTool(Sanitize(name.value, "http_tool"), Or(n.toolDescription, "HTTP request tool"), n.url,
      n.httpMethod.GetOr("GET"), c.fixed, FromPairs(c.secrets), c.query));
  }

  lemma HttpToolFallback()
    ensures IsIdent("http_tool")
  {
    var h := "http_tool";
    assert h[4] == '_';
  }

  /** A tool's name is `[a-z0-9_]` and never empty. */
  lemma HttpToolName(n: Node)
    requires HttpToolOf(n).Ok?
    ensures HttpToolOf(n).value.toolName != [] && IsIdent(HttpToolOf(n).value.toolName)
  {
    HttpToolFallback();
    SanitizeIdent(ToolNodeName(n).value, "http_tool");
  }

  /** A missing method is "GET"; the query name, when there is one, is query-like. */
  lemma HttpToolQuery(n: Node)
    requires HttpToolOf(n).Ok?
    ensures n.httpMethod.None? ==> HttpToolOf(n).value.httpMethod == "GET"
    ensures HttpToolOf(n).value.queryName.Some? ==> IsQueryName(HttpToolOf(n).value.queryName.value)
  {
    QueryIsQueryLike(n.queryParams, false, SnakeEnv(ToolNodeName(n).value));
  }

  /** Each secret of a tool is read from `SNAKE_ENV(name)_NAME`, and no secret is
      query-like. */
  lemma HttpToolSecret(n: Node, k: string)
    requires HttpToolOf(n).Ok? && Get(HttpToolOf(n).value.keyEnv, k).Some?
    ensures IsSecretName(k) && !IsQueryName(k)
    ensures Get(HttpToolOf(n).value.keyEnv, k).value == SnakeEnv(ToolNodeName(n).value) + "_" + Upper(k)
  {
    ClassifyKeyEnv(n.queryParams, false, SnakeEnv(ToolNodeName(n).value), k);
  }

  /** The secrets as a dict, as `key_env_map` holds them. */
  lemma ClassifyKeyEnv(qp: seq<QueryParam>, skipEmpty: bool, prefix: string, k: string)
    requires Get(FromPairs(Classify(qp, skipEmpty, prefix).secrets), k).Some?
    ensures IsSecretName(k) && !IsQueryName(k)
    ensures Get(FromPairs(Classify(qp, skipEmpty, prefix).secrets), k).value == prefix + "_" + Upper(k)
  {
    var secrets := Classify(qp, skipEmpty, prefix).secrets;
    ClassifySecretsSound(qp, skipEmpty, prefix);
    assert SecretPairs(secrets, prefix);
    FromPairsKeys(secrets, k);
    var i :| 0 <= i < |secrets| && secrets[i].0 == k;
    var last := LastWith(secrets, k, i);
    FromPairsLast(secrets, last);
  }

  /** The last pair with key `k`, at or after `i`. */
  lemma LastWith(pairs: seq<(string, string)>, k: string, i: nat) returns (last: nat)
    requires i < |pairs| && pairs[i].0 == k
    ensures i <= last < |pairs| && pairs[last].0 == k
    ensures forall j :: last < j < |pairs| ==> pairs[j].0 != k
    decreases |pairs| - i
  {
    if j :| i < j < |pairs| && pairs[j].0 == k {
      last := LastWith(pairs, k, j);
    } else {
      last := i;
    }
  }

  lemma {:induction false} QueryIsQueryLike(qp: seq<QueryParam>, skipEmpty: bool, prefix: string)
    ensures Classify(qp, skipEmpty, prefix).query.Some? ==> IsQueryName(Classify(qp, skipEmpty, prefix).query.value)
  {
    if qp != [] {
      QueryIsQueryLike(qp[..|qp| - 1], skipEmpty, prefix);
    }
  }

  // ---------------------------------------------------------------- calling the tool

  /** One entry of the `items` list of a JSON answer. */
  datatype Entry = Item(title: Value, link: Value) | NotADict

  /** A JSON object with an `items` key (its entries, `[]` for a null or empty value, and
      its `str()`), or any other answer given by its `str()`. */
  datatype Data = ItemsDict(items: seq<Entry>, text: string) | OtherData(text: string)

  /** What `requests.request` gives back: the decoded answer, or the exception it raised. */
  datatype Response = Received(data: Data) | RequestFailed(message: string)

  /** `os.getenv` */
  type Getenv = string -> Option<string>

  /** `requests.request(method, url, params=params, timeout=30)` */
  type Request = (string, string, Dict<Value>) -> Response

  const NoUrl := "No URL configured."
  const ResultLimit := 4000
  const TopLimit := 5

  /** Python's `f"{v}"` */
  function ValueText(v: Value): string {
    match v
    case Null => "None"
    case Str(s) => s
    case NonString(text, _) => text
  }

  /** The lines of the result list: one per dict entry, in order. */
  function TopLines(items: seq<Entry>): (r: seq<string>)
    ensures |r| <= |items|
  {
    if items == [] then []
    else
      var rest := TopLines(items[1..]);
      match items[0]
      case Item(title, link) => ["- " + ValueText(title) + "\n  " + ValueText(link)] + rest
      case NotADict => rest
  }

  /** The tool's answer for the data it received. */
  function Summary(d: Data): string {
    match d
    case ItemsDict(items, _) =>
      var top := TopLines(items[..if |items| < TopLimit then |items| else TopLimit]);
      "Top results:\n" + (if top == [] then "No results" else Join(top, "\n"))
    case OtherData(text) => text[..if |text| < ResultLimit then |text| else ResultLimit]
  }

  /** An unset or empty variable: `not os.getenv(env)`. */
  predicate Unset(getenv: Getenv, env: string) {
    getenv(env).None? || getenv(env).value == ""
  }

  /** The value sent for a secret whose variable is set. */
  function EnvValue(getenv: Getenv, env: string): Value {
    Str(getenv(env).GetOr(""))
  }

  /** `params[q_param_name] = query` when the tool has a query name. */
  function WithQuery(fixed: Dict<Value>, queryName: Option<string>, query: string): Dict<Value> {
    if queryName.Some? && queryName.value != "" then Put(fixed, queryName.value, Str(query)) else fixed
  }

  /** The loop over `key_env_map`: each secret's value from its variable, stopping at the
      first unset one with the `Missing env` answer. */
  function EnvParams(keyEnv: Dict<string>, params: Dict<Value>, getenv: Getenv): Result<Dict<Value>> {
    if keyEnv == [] then Ok(params)
    else
      var (k, env) := keyEnv[0];
      if Unset(getenv, env) then Err("Missing env: " + env)
      else EnvParams(keyEnv[1..], Put(params, k, EnvValue(getenv, env)), getenv)
  }

  /** `_tool(query)` as a function of the tool, the environment and the network. */
  function InvokeSpec(t: HttpTool, query: string, getenv: Getenv, request: Request): string {
    if t.url.None? || t.url.value == "" then NoUrl
    else
      match EnvParams(t.keyEnv, WithQuery(t.fixed, t.queryName, query), getenv)
      case Err(missing) => missing
      case Ok(params) =>
        match request(Upper(t.httpMethod), t.url.value, params)
        case RequestFailed(e) => "HTTP error: " + e
        case Received(data) => Summary(data)
  }

  /** `_tool`: builds `params` in place and calls the service. */
  method Invoke(t: HttpTool, query: string, getenv: Getenv, request: Request) returns (r: string)
    ensures r == InvokeSpec(t, query, getenv, request)
  {
    if t.url.None? || t.url.value == "" {
      return NoUrl;
    }
    var params := t.fixed;
    if t.queryName.Some? && t.queryName.value != "" {
      params := Put(params, t.queryName.value, Str(query));
    }
    var filled := FillEnv(t.keyEnv, params, getenv);
    if filled.Err? {
      return filled.error;
    }
    var response := request(Upper(t.httpMethod), t.url.value, filled.value);
    match response
    case RequestFailed(e) =>
      r := "HTTP error: " + e;
    case Received(data) =>
      r := Summary(data);
  }

  /** The loop over `key_env_map` of `_tool`, writing each secret into `params`. */
  method FillEnv(keyEnv: Dict<string>, params0: Dict<Value>, getenv: Getenv) returns (r: Result<Dict<Value>>)
    ensures r == EnvParams(keyEnv, params0, getenv)
  {
    var params := params0;
    var i := 0;
    while i < |keyEnv|
      invariant 0 <= i <= |keyEnv|
      invariant EnvParams(keyEnv, params0, getenv) == EnvParams(keyEnv[i..], params, getenv)
    {
      var k := keyEnv[i].0;
      var env := keyEnv[i].1;
      assert keyEnv[i..][0] == (k, env);
      assert keyEnv[i..][1..] == keyEnv[i + 1..];
      var v := getenv(env);
      if v.None? || v.value == "" {
        return Err("Missing env: " + env);
      }
      assert EnvParams(keyEnv[i..], params, getenv) == EnvParams(keyEnv[i + 1..], Put(params, k, Str(v.value)), getenv);
      params := Put(params, k, Str(v.value));
      i := i + 1;
    }
    assert keyEnv[i..] == [];
    return Ok(params);
  }

  /** Without a URL the tool answers `No URL configured.`, whatever else holds. */
  lemma InvokeNoUrl(t: HttpTool, query: string, getenv: Getenv, request: Request)
    requires t.url.None? || t.url.value == ""
    ensures InvokeSpec(t, query, getenv, request) == NoUrl
  {
  }

  /** The first unset variable decides the answer before any request: the result names it
      and does not depend on the network. */
  lemma {:induction false} EnvParamsMissing(keyEnv: Dict<string>, params: Dict<Value>, getenv: Getenv, j: nat)
    requires j < |keyEnv| && Unset(getenv, keyEnv[j].1)
    requires forall i :: 0 <= i < j ==> !Unset(getenv, keyEnv[i].1)
    ensures EnvParams(keyEnv, params, getenv) == Err("Missing env: " + keyEnv[j].1)
  {
    if j > 0 {
      var (k, env) := keyEnv[0];
      EnvParamsMissing(keyEnv[1..], Put(params, k, EnvValue(getenv, env)), getenv, j - 1);
    }
  }

  lemma InvokeMissingEnv(t: HttpTool, query: string, getenv: Getenv, request: Request, j: nat)
    requires t.url.Some? && t.url.value != ""
    requires j < |t.keyEnv| && Unset(getenv, t.keyEnv[j].1)
    requires forall i :: 0 <= i < j ==> !Unset(getenv, t.keyEnv[i].1)
    ensures InvokeSpec(t, query, getenv, request) == "Missing env: " + t.keyEnv[j].1
  {
    EnvParamsMissing(t.keyEnv, WithQuery(t.fixed, t.queryName, query), getenv, j);
  }

  /** When every variable is set, each secret is sent with its variable's value and every
      other key keeps the value it had. */
  lemma {:induction false} EnvParamsSet(keyEnv: Dict<string>, params: Dict<Value>, getenv: Getenv, k: string)
    requires UniqueKeys(keyEnv)
    requires forall i :: 0 <= i < |keyEnv| ==> !Unset(getenv, keyEnv[i].1)
    ensures EnvParams(keyEnv, params, getenv).Ok?
    ensures Get(keyEnv, k).Some? ==> Get(EnvParams(keyEnv, params, getenv).value, k) == Some(EnvValue(getenv, Get(keyEnv, k).value))
    ensures Get(keyEnv, k).None? ==> Get(EnvParams(keyEnv, params, getenv).value, k) == Get(params, k)
  {
    if keyEnv != [] {
      var (k0, env) := keyEnv[0];
      var rest := keyEnv[1..];
      assert UniqueKeys(rest);
      assert Keys(keyEnv) == [k0] + Keys(rest);
      assert k0 !in Keys(rest) by {
        forall i | 0 <= i < |rest| ensures rest[i].0 != k0 {
          assert rest[i] == keyEnv[i + 1];
        }
      }
      EnvParamsSet(rest, Put(params, k0, EnvValue(getenv, env)), getenv, k);
    }
  }

  /** The listing of a JSON answer with items: the heading, then at most five lines, or
      `No results` when none of the first five entries is a dict. */
  lemma SummaryItems(items: seq<Entry>, text: string)
    ensures var top := TopLines(items[..if |items| < TopLimit then |items| else TopLimit]);
      |top| <= TopLimit
      && Summary(ItemsDict(items, text)) == "Top results:\n" + (if top == [] then "No results" else Join(top, "\n"))
  {
  }

  /** Any other answer is its text cut to its first 4000 characters. */
  lemma SummaryOther(text: string)
    ensures |Summary(OtherData(text))| <= ResultLimit
    ensures StartsWith(text, Summary(OtherData(text)))
    ensures |text| <= ResultLimit ==> Summary(OtherData(text)) == text
  {
  }

  // ---------------------------------------------------------------- build_langgraph_from_n8n

  /** The agent `build_langgraph_from_n8n` builds: its model, its tools, and the trigger name
      `invoke_chat` reports. */
  datatype Graph = Graph(model: string, tools: seq<HttpTool>, trigger: Option<string>)

  const NoChatModel := "OpenAI Chat Model 노드를 찾지 못함 (@n8n/n8n-nodes-langchain.lmChatOpenAi)."
  const DefaultTrigger := "When chat message received"

  /** The HTTP tool nodes, in order. */
  function HttpNodes(nodes: seq<Node>): (r: seq<Node>)
    ensures |r| <= |nodes|
  {
    if nodes == [] then []
    else HttpNodes(nodes[..|nodes| - 1]) + (if IsHttpTool(nodes[|nodes| - 1]) then [nodes[|nodes| - 1]] else [])
  }

  /** The tool loop: one tool per HTTP tool node, stopping at the first that raises. */
  function HttpTools(nodes: seq<Node>): Result<seq<HttpTool>> {
    if nodes == [] then Ok([])
    else
      var tools :- HttpTools(nodes[..|nodes| - 1]);
      var n := nodes[|nodes| - 1];
      if IsHttpTool(n) then
        var t :- HttpToolOf(n);
        Ok(tools + [t])
      else Ok(tools)
  }

  function BuildGraphSpec(nodes: seq<Node>): Result<Graph> {
    match First(nodes, IsChatModel)
    case None => Err(NoChatModel)
    case Some(i) =>
      var model :- PickModel(nodes[i].model);
      var tools :- HttpTools(nodes);
      var trigger := match First(nodes, IsChatTrigger)
        case None => Some(DefaultTrigger)
        case Some(j) => nodes[j].name;
      Ok(Graph(model, tools, trigger))
  }

  /** `build_langgraph_from_n8n` */
  method BuildGraph(nodes: seq<Node>) returns (r: Result<Graph>)
    ensures r == BuildGraphSpec(nodes)
  {
    var llm := First(nodes, IsChatModel);
    if llm.None? {
      return Err(NoChatModel);
    }
    var model := PickModel(nodes[llm.value].model);
    if model.Err? {
      return Err(model.error);
    }
    var tools := CollectHttpTools(nodes);
    if tools.Err? {
      return Err(tools.error);
    }
    var trigger := First(nodes, IsChatTrigger);
    var triggerName := if trigger.None? then Some(DefaultTrigger) else nodes[trigger.value].name;
    r := Ok(Graph(model.value, tools.value, triggerName));
  }

  /** The tool loop of `build_langgraph_from_n8n`. */
  method CollectHttpTools(nodes: seq<Node>) returns (r: Result<seq<HttpTool>>)
    ensures r == HttpTools(nodes)
  {
    var tools: seq<HttpTool> := [];
    var i := 0;
    while i < |nodes|
      invariant 0 <= i <= |nodes|
      invariant HttpTools(nodes[..i]) == Ok(tools)
    {
      assert nodes[..i + 1][..i] == nodes[..i];
      if IsHttpTool(nodes[i]) {
        var t := BuildHttpTool(nodes[i]);
        if t.Err? {
          HttpToolsFailureSticks(nodes, i + 1);
          return Err(t.error);
        }
        tools := tools + [t.value];
      }
      i := i + 1;
    }
    assert nodes[..i] == nodes;
    r := Ok(tools);
  }

  /** Once a tool node raises, the whole loop does. */
  lemma {:induction false} HttpToolsFailureSticks(nodes: seq<Node>, i: nat)
    requires i <= |nodes| && HttpTools(nodes[..i]).Err?
    ensures HttpTools(nodes) == Err(HttpTools(nodes[..i]).error)
    decreases |nodes| - i
  {
    if i < |nodes| {
      assert nodes[..i + 1][..i] == nodes[..i];
      HttpToolsFailureSticks(nodes, i + 1);
    } else {
      assert nodes[..i] == nodes;
    }
  }

  /** Without a chat-model node the builder raises. */
  lemma BuildGraphNoModel(nodes: seq<Node>)
    ensures (forall i :: 0 <= i < |nodes| ==> !IsChatModel(nodes[i])) ==> BuildGraphSpec(nodes) == Err(NoChatModel)
  {
  }

  /** A built graph uses the model of the first chat-model node and, without a chat trigger,
      the default trigger name. */
  lemma BuildGraphModel(nodes: seq<Node>, i: nat)
    requires i < |nodes| && IsChatModel(nodes[i]) && forall j :: 0 <= j < i ==> !IsChatModel(nodes[j])
    requires BuildGraphSpec(nodes).Ok?
    ensures PickModel(nodes[i].model) == Ok(BuildGraphSpec(nodes).value.model)
    ensures (forall j :: 0 <= j < |nodes| ==> !IsChatTrigger(nodes[j])) ==> BuildGraphSpec(nodes).value.trigger == Some(DefaultTrigger)
  {
    assert First(nodes, IsChatModel) == Some(i);
  }

  /** A built graph has one tool per HTTP tool node, in order. */
  lemma {:induction false} HttpToolsSpec(nodes: seq<Node>)
    requires HttpTools(nodes).Ok?
    ensures |HttpTools(nodes).value| == |HttpNodes(nodes)|
    ensures forall k :: 0 <= k < |HttpNodes(nodes)| ==> HttpToolOf(HttpNodes(nodes)[k]) == Ok(HttpTools(nodes).value[k])
  {
    if nodes != [] {
      var init := nodes[..|nodes| - 1];
      HttpToolsSpec(init);
    }
  }
}
