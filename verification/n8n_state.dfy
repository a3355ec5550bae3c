/** `N8nConvertState` of `state/n8n2langgraph_state.py`: the page that turns an n8n workflow
    into the source of a LangGraph agent. `_convert` picks the chat model, turns every HTTP
    tool node into a tool (fixed, secret and query parameters), collects which environment
    variables each tool needs, and assembles the code from three text templates; the
    template texts themselves are a parameter (`Render`), and so is the JSON decoder. */
module N8nState {
  import opened Wrappers
  import opened Strs
  import opened PyDict
  import opened N8nUtils
  import Utf8

  /** `_sanitize_name` */
  function SanitizeName(name: string): string {
    Sanitize(name, "tool")
  }

  lemma ToolFallback()
    ensures IsIdent("tool")
  {
    var t := "tool";
    assert t[0] == 't' && t[1] == 'o' && t[2] == 'o' && t[3] == 'l';
  }

  /** A function name is never empty, uses only `[a-z0-9_]`, is "tool" for a blank name, and
      sanitizing it again changes nothing. */
  lemma SanitizeNameSpec(name: string)
    ensures SanitizeName(name) != [] && IsIdent(SanitizeName(name))
    ensures IsBlank(name) ==> SanitizeName(name) == "tool"
    ensures SanitizeName(SanitizeName(name)) == SanitizeName(name)
  {
    ToolFallback();
    SanitizeIdent(name, "tool");
    SanitizeSpec(name, "tool");
    SanitizeIdempotent(name, "tool");
  }

  // ---------------------------------------------------------------- tools

  /** One entry of `tools` in `_convert`. */
  datatype Tool = Tool(
    func: string,
    desc: string,
    url: string,
    httpMethod: string,
    fixed: Dict<Value>,
    queryParam: Option<string>,
    envKeys: seq<(string, string)>)

  /** The tool of one HTTP tool node; its secrets are read from `FUNC_NAME`. */
  function ToolOf(n: Node): Tool {
    var func := SanitizeName(Or(n.name, Or(n.id, "http_tool")));
    var c := Classify(n.queryParams, true, Upper(func));
    Tool(func, Or(n.toolDescription, "HTTP request tool"), Or(n.url, ""), n.httpMethod.GetOr("GET"),
      c.fixed, c.query, c.secrets)
  }

  /** The tool loop of `_convert` over the nodes. */
  function ToolsOf(nodes: seq<Node>): seq<Tool> {
    if nodes == [] then []
    else ToolsOf(nodes[..|nodes| - 1]) + (if IsHttpTool(nodes[|nodes| - 1]) then [ToolOf(nodes[|nodes| - 1])] else [])
  }

  function EnvNames(envKeys: seq<(string, string)>): (r: seq<string>)
    ensures |r| == |envKeys|
  {
    seq(|envKeys|, i requires 0 <= i < |envKeys| => envKeys[i].1)
  }

  /** `env_hints`: for each tool with secrets, their variable names, by function name. */
  function HintsOf(tools: seq<Tool>): Dict<seq<string>> {
    if tools == [] then []
    else
      var h := HintsOf(tools[..|tools| - 1]);
      var t := tools[|tools| - 1];
      if t.envKeys != [] then Put(h, t.func, EnvNames(t.envKeys)) else h
  }

  /** Exactly one tool per HTTP tool node, in node order. */
  lemma {:induction false} ToolsOfSpec(nodes: seq<Node>)
    ensures |ToolsOf(nodes)| == |HttpNodes(nodes)|
    ensures forall k :: 0 <= k < |HttpNodes(nodes)| ==> ToolsOf(nodes)[k] == ToolOf(HttpNodes(nodes)[k])
  {
    if nodes != [] {
      ToolsOfSpec(nodes[..|nodes| - 1]);
    }
  }

  /** A tool's function name is sanitized, its method defaults to "GET", and each of its
      secrets is a secret, non-query name read from `FUNC.upper() + "_" + NAME.upper()`. */
  lemma ToolOfSpec(n: Node)
    ensures ToolOf(n).func != [] && IsIdent(ToolOf(n).func)
    ensures n.httpMethod.None? ==> ToolOf(n).httpMethod == "GET"
    ensures SecretPairs(ToolOf(n).envKeys, Upper(ToolOf(n).func))
  {
    var func := SanitizeName(Or(n.name, Or(n.id, "http_tool")));
    SanitizeNameSpec(Or(n.name, Or(n.id, "http_tool")));
    ClassifySecretsSound(n.queryParams, true, Upper(func));
  }

  /** A function name has hints exactly when some tool of that name has secrets. */
  lemma {:induction false} HintsKeys(tools: seq<Tool>, f: string)
    ensures Get(HintsOf(tools), f).None? <==> forall i :: 0 <= i < |tools| && tools[i].func == f ==> tools[i].envKeys == []
  {
    if tools != [] {
      var init := tools[..|tools| - 1];
      var t := tools[|tools| - 1];
      HintsKeys(init, f);
      assert forall i :: 0 <= i < |init| ==> init[i] == tools[i];
      if t.envKeys != [] && t.func != f {
        assert Get(HintsOf(tools), f) == Get(HintsOf(init), f);
      }
    }
  }

  /** The hints of a name are the variables of the last tool of that name with secrets. */
  lemma {:induction false} HintsLast(tools: seq<Tool>, i: nat)
    requires i < |tools| && tools[i].envKeys != []
    requires forall j :: i < j < |tools| && tools[j].func == tools[i].func ==> tools[j].envKeys == []
    ensures Get(HintsOf(tools), tools[i].func) == Some(EnvNames(tools[i].envKeys))
  {
    var init := tools[..|tools| - 1];
    var t := tools[|tools| - 1];
    if i < |tools| - 1 {
      HintsLast(init, i);
      if t.envKeys != [] {
        assert t.func != tools[i].func;
        assert Get(HintsOf(tools), tools[i].func) == Get(HintsOf(init), tools[i].func);
      }
    }
  }

  // ---------------------------------------------------------------- the model

  /** The first chat-model node's model, else "gpt-4.1-mini". */
  function ModelOf(nodes: seq<Node>): Result<string> {
    match First(nodes, IsChatModel)
    case None => Ok(DefaultModel)
    case Some(i) => PickModel(nodes[i].model)
  }

  /** The first chat-model node decides, even when a later one names another model. */
  lemma ModelOfSpec(nodes: seq<Node>, i: nat)
    requires i < |nodes| && IsChatModel(nodes[i]) && forall j :: 0 <= j < i ==> !IsChatModel(nodes[j])
    ensures ModelOf(nodes) == PickModel(nodes[i].model)
  {
    assert First(nodes, IsChatModel) == Some(i);
  }

  /** Without a chat-model node the default model is used. */
  lemma ModelOfDefault(nodes: seq<Node>)
    requires forall j :: 0 <= j < |nodes| ==> !IsChatModel(nodes[j])
    ensures ModelOf(nodes) == Ok(DefaultModel)
  {
  }

  // ---------------------------------------------------------------- the code

  /** `s.replace('"', '\\"')` */
  function Escape(s: string): (r: string)
    ensures forall i :: 0 <= i < |r| && r[i] == '"' ==> i > 0 && r[i - 1] == '\\'
  {
    if s == [] then []
    else
      var rest := Escape(s[1..]);
      (if s[0] == '"' then "\\\"" else [s[0]]) + rest
  }

  /** Undoes `Escape`: each `\"` becomes `"`, left to right. */
  function Unescape(r: string): string {
    if r == [] then []
    else if |r| >= 2 && r[0] == '\\' && r[1] == '"' then "\"" + Unescape(r[2..])
    else [r[0]] + Unescape(r[1..])
  }

  /** Escaping loses nothing: the description and URL put into the template can be read
      back exactly. */
  lemma {:induction false} EscapeRoundTrip(s: string)
    ensures Unescape(Escape(s)) == s
  {
    if s != [] {
      var rest := Escape(s[1..]);
      EscapeRoundTrip(s[1..]);
      if s[0] == '"' {
        assert Escape(s) == "\\\"" + rest;
        assert Escape(s)[2..] == rest;
      } else {
        assert Escape(s) == [s[0]] + rest;
        assert Escape(s)[1..] == rest;
        assert rest != [] ==> rest[0] != '"';
      }
    }
  }

  /** `f'{(v or "")}'` */
  function ValueOrEmpty(v: Value): string {
    match v
    case Null => ""
    case Str(s) => s
    case NonString(text, truthy) => if truthy then text else ""
  }

  /** `fixed_src`: the fixed parameters as a dict literal. */
  function FixedSrc(fixed: Dict<Value>): string {
    if fixed == [] then "{}"
    else
      "{" + Join(seq(|fixed|, i requires 0 <= i < |fixed| => "\"" + fixed[i].0 + "\": \"" + ValueOrEmpty(fixed[i].1) + "\""), ", ") + "}"
  }

  /** `query_block` */
  function QueryBlock(queryParam: Option<string>): string {
    if queryParam.Some? && queryParam.value != "" then
      "    if query is not None:\n        params[\"" + queryParam.value + "\"] = query"
    else ""
  }

  /** The three lines of `env_block` for one secret. */
  function EnvCheck(k: string, env: string): seq<string> {
    ["    v_" + k + " = os.getenv(\"" + env + "\")", "    if not v_" + k + ":", "        return \"Missing env: " + env + "\""]
  }

  function EnvLines(envKeys: seq<(string, string)>): seq<string> {
    if envKeys == [] then [] else EnvLines(envKeys[..|envKeys| - 1]) + EnvCheck(envKeys[|envKeys| - 1].0, envKeys[|envKeys| - 1].1)
  }

  /** `env_assign_block` */
  function EnvAssignBlock(envKeys: seq<(string, string)>): string {
    Join(seq(|envKeys|, i requires 0 <= i < |envKeys| => "    params[\"" + envKeys[i].0 + "\"] = v_" + envKeys[i].0), "\n")
  }

  /** The values the tool template is filled with. */
  datatype ToolFill = ToolFill(
    func: string,
    desc: string,
    url: string,
    httpMethod: string,
    fixedSrc: string,
    queryBlock: string,
    envBlock: string,
    envAssignBlock: string)

  function FillOf(t: Tool): ToolFill {
    ToolFill(t.func, Escape(t.desc), Escape(t.url), Upper(t.httpMethod), FixedSrc(t.fixed),
      QueryBlock(t.queryParam), Join(EnvLines(t.envKeys), "\n"), EnvAssignBlock(t.envKeys))
  }

  /** Each secret's check has three lines, in the order of the secrets. */
  lemma {:induction false} EnvLinesSpec(envKeys: seq<(string, string)>)
    ensures |EnvLines(envKeys)| == 3 * |envKeys|
    ensures forall j :: 0 <= j < |envKeys| ==> EnvLines(envKeys)[3 * j..3 * j + 3] == EnvCheck(envKeys[j].0, envKeys[j].1)
  {
    if envKeys != [] {
      var init := envKeys[..|envKeys| - 1];
      EnvLinesSpec(init);
      var l := EnvLines(envKeys);
      forall j | 0 <= j < |envKeys| ensures l[3 * j..3 * j + 3] == EnvCheck(envKeys[j].0, envKeys[j].1) {
        if j < |init| {
          assert l[3 * j..3 * j + 3] == EnvLines(init)[3 * j..3 * j + 3];
        }
      }
    }
  }

  /** The template texts: the header (filled with the model), the tool template and the
      tail (filled with `tools_block`). */
  datatype Render = Render(header: string -> string, tool: ToolFill -> string, tail: string -> string)

  /** `tools_block` */
  function ToolsBlock(names: seq<string>): string {
    if names == [] then "tools = []" else "tools = [" + Join(names, ", ") + "]"
  }

  /** `tools_block` lists the names in order, and names the empty list exactly when there is
      no tool: the special case agrees with the general one. */
  lemma ToolsBlockSpec(names: seq<string>)
    requires forall i :: 0 <= i < |names| ==> names[i] != []
    ensures ToolsBlock(names) == "tools = [" + Join(names, ", ") + "]"
    ensures ToolsBlock(names) == "tools = []" <==> names == []
  {
    if names != [] {
      JoinLength(names, ", ");
      assert |names[0]| >= 1;
    }
  }

  function FuncNames(tools: seq<Tool>): (r: seq<string>)
    ensures |r| == |tools|
  {
    seq(|tools|, i requires 0 <= i < |tools| => tools[i].func)
  }

  function ToolDefs(tools: seq<Tool>, render: Render): (r: seq<string>)
    ensures |r| == |tools|
  {
    seq(|tools|, i requires 0 <= i < |tools| => render.tool(FillOf(tools[i])))
  }

  /** `header + "\n".join(tool_defs) + "\n" + tail` */
  function CodeOf(model: string, tools: seq<Tool>, render: Render): string {
    render.header(model) + Join(ToolDefs(tools, render), "\n") + "\n" + render.tail(ToolsBlock(FuncNames(tools)))
  }

  /** `_convert`, as a function of the workflow's nodes. */
  function ConvertSpec(nodes: seq<Node>, render: Render): Result<(string, Dict<seq<string>>)> {
    var model :- ModelOf(nodes);
    var tools := ToolsOf(nodes);
    Ok((CodeOf(model, tools, render), HintsOf(tools)))
  }

  /** The model loop of `_convert`: stops at the first chat-model node. */
  method FindModel(nodes: seq<Node>) returns (r: Result<string>)
    ensures r == ModelOf(nodes)
  {
    var i := 0;
    while i < |nodes|
      invariant 0 <= i <= |nodes|
      invariant forall j :: 0 <= j < i ==> !IsChatModel(nodes[j])
    {
      if IsChatModel(nodes[i]) {
        assert First(nodes, IsChatModel) == Some(i);
        return PickModel(nodes[i].model);
      }
      i := i + 1;
    }
    return Ok(DefaultModel);
  }

  /** The tool loop of `_convert`, filling `tools` and `env_hints`. */
  method CollectTools(nodes: seq<Node>) returns (tools: seq<Tool>, hints: Dict<seq<string>>)
    ensures tools == ToolsOf(nodes) && hints == HintsOf(tools)
  {
    tools, hints := [], [];
    var i := 0;
    while i < |nodes|
      invariant 0 <= i <= |nodes|
      invariant tools == ToolsOf(nodes[..i]) && hints == HintsOf(tools)
    {
      ghost var prefix := nodes[..i + 1];
      assert prefix[..i] == nodes[..i];
      var n := nodes[i];
      assert prefix[i] == n;
      if IsHttpTool(n) {
        var t := MakeTool(n);
        if t.envKeys != [] {
          hints := Put(hints, t.func, EnvNames(t.envKeys));
        }
        assert ToolsOf(prefix) == tools + [t];
        assert (tools + [t])[..|tools|] == tools;
        tools := tools + [t];
      } else {
        assert ToolsOf(prefix) == tools;
      }
      i := i + 1;
    }
    assert nodes[..i] == nodes;
  }

  /** One pass of the tool loop for an HTTP tool node. */
  method MakeTool(n: Node) returns (t: Tool)
    ensures t == ToolOf(n)
  {
    var func := SanitizeName(Or(n.name, Or(n.id, "http_tool")));
    var c := ClassifyParams(n.queryParams, true, Upper(func));
    t := Tool(func, Or(n.toolDescription, "HTTP request tool"), Or(n.url, ""), n.httpMethod.GetOr("GET"),
      c.fixed, c.query, c.secrets);
  }

  /** The code loop of `_convert`, filling `tool_defs` and `tool_names`. */
  method RenderTools(tools: seq<Tool>, render: Render) returns (defs: seq<string>, names: seq<string>)
    ensures defs == ToolDefs(tools, render) && names == FuncNames(tools)
  {
    defs, names := [], [];
    var i := 0;
    while i < |tools|
      invariant 0 <= i <= |tools|
      invariant defs == ToolDefs(tools[..i], render) && names == FuncNames(tools[..i])
    {
      defs := defs + [render.tool(FillOf(tools[i]))];
      names := names + [tools[i].func];
      i := i + 1;
    }
    assert tools[..i] == tools;
  }

  /** `_convert` */
  method ConvertWorkflow(nodes: seq<Node>, render: Render) returns (r: Result<(string, Dict<seq<string>>)>)
    ensures r == ConvertSpec(nodes, render)
  {
    var model := FindModel(nodes);
    if model.Err? {
      return Err(model.error);
    }
    var tools, hints := CollectTools(nodes);
    var defs, names := RenderTools(tools, render);
    var code := render.header(model.value) + Join(defs, "\n") + "\n" + render.tail(ToolsBlock(names));
    r := Ok((code, hints));
  }

  // ---------------------------------------------------------------- the page state

  /** What `json.loads` gives: a workflow object (its nodes, `[]` when it has none), a JSON
      value of another type (`list`, `str`, …) on which `.get` raises. */
  datatype Decoded = Workflow(nodes: seq<Node>) | NotAnObject(typeName: string)

  /** `json.loads`, or the message of the error it raises. */
  type Parse = string -> Result<Decoded>

  /** A file handed to `handle_upload`: its `name` attribute if it has one, and what
      `await f.read()` gives. */
  datatype Upload = Upload(name: Option<string>, content: Result<seq<Utf8.byte>>)

  /** The message of the `UnicodeDecodeError` for undecodable bytes. */
  type DecodeError = seq<Utf8.byte> -> string

  const ParseFailed := "JSON 파싱 실패: "
  const ConvertFailed := "변환 실패: "
  const ReadFailed := "파일 읽기 실패: "
  const DownloadName := "langgraph_app.py"

  datatype View = View(jsonText: string, convertedCode: string, uploadedFilename: string,
    envHints: Dict<seq<string>>, error: string)

  /** `convert` */
  function ConvertView(v: View, parse: Parse, render: Render): View {
    var cleared := v.(error := "", convertedCode := "", envHints := []);
    match parse(v.jsonText)
    case Err(e) => cleared.(error := ParseFailed + e)
    case Ok(NotAnObject(t)) => cleared.(error := ConvertFailed + NoGet(t))
    case Ok(Workflow(nodes)) =>
      match ConvertSpec(nodes, render)
      case Err(e) => cleared.(error := ConvertFailed + e)
      case Ok((code, hints)) => cleared.(convertedCode := code, envHints := hints)
  }

  /** `download_py`: nothing without code, otherwise the code as `langgraph_app.py`. */
  function DownloadOf(v: View): (r: Option<(string, string)>)
    ensures r.None? <==> v.convertedCode == ""
  {
    if v.convertedCode == "" then None else Some((v.convertedCode, DownloadName))
  }

  /** `handle_upload`: the first file's name and text; a read or decode failure is reported
      and leaves the text as it was. */
  function UploadView(v: View, files: seq<Upload>, decodeError: DecodeError): View {
    if files == [] then v
    else
      var f := files[0];
      var named := v.(uploadedFilename := f.name.GetOr("uploaded.json"));
      match f.content
      case Err(e) => named.(error := ReadFailed + e)
      case Ok(bytes) =>
        match Utf8.Decode(bytes)
        case Some(text) => named.(jsonText := text)
        case None => named.(error := ReadFailed + decodeError(bytes))
  }

  /** A conversion either fails with a message and no code, or succeeds with code and no
      error; the input text and file name are kept. A parse failure leaves no hints. */
  lemma ConvertViewSpec(v: View, parse: Parse, render: Render)
    ensures ConvertView(v, parse, render).error == "" <==> ConvertView(v, parse, render).convertedCode != ""
    ensures ConvertView(v, parse, render).jsonText == v.jsonText
    ensures ConvertView(v, parse, render).uploadedFilename == v.uploadedFilename
    ensures parse(v.jsonText).Err? ==>
      ConvertView(v, parse, render) == v.(error := ParseFailed + parse(v.jsonText).error, convertedCode := "", envHints := [])
  {
  }

  /** After a successful conversion the code is ready for download, and the hints are the
      variables of the tools. */
  lemma ConvertThenDownload(v: View, parse: Parse, render: Render, nodes: seq<Node>)
    requires parse(v.jsonText) == Ok(Workflow(nodes)) && ConvertSpec(nodes, render).Ok?
    ensures DownloadOf(ConvertView(v, parse, render)) == Some((ConvertSpec(nodes, render).value.0, DownloadName))
    ensures ConvertView(v, parse, render).envHints == HintsOf(ToolsOf(nodes))
  {
  }

  /** No file changes nothing; a decoded file replaces the text and keeps any earlier error;
      a failure keeps the text. */
  lemma UploadViewSpec(v: View, files: seq<Upload>, decodeError: DecodeError)
    ensures files == [] ==> UploadView(v, files, decodeError) == v
    ensures files != [] ==> UploadView(v, files, decodeError).uploadedFilename == files[0].name.GetOr("uploaded.json")
    ensures files != [] && files[0].content.Ok? && Utf8.Decode(files[0].content.value).Some? ==>
      UploadView(v, files, decodeError).jsonText == Utf8.Decode(files[0].content.value).value
      && UploadView(v, files, decodeError).error == v.error
    ensures files != [] && (files[0].content.Err? || Utf8.Decode(files[0].content.value).None?) ==>
      UploadView(v, files, decodeError).jsonText == v.jsonText
      && StartsWith(UploadView(v, files, decodeError).error, ReadFailed)
  {
  }

  class N8nConvertState {
    var jsonText: string
    var convertedCode: string
    var uploadedFilename: string
    var envHints: Dict<seq<string>>
    var error: string

    function Snapshot(): View
      reads this
    {
      View(jsonText, convertedCode, uploadedFilename, envHints, error)
    }

    constructor()
      ensures Snapshot() == View("", "", "", [], "")
    {
      jsonText, convertedCode, uploadedFilename, envHints, error := "", "", "", [], "";
    }

    /** `set_json_text` */
    method SetJsonText(text: string)
      modifies this
      ensures Snapshot() == old(Snapshot()).(jsonText := text)
    {
      jsonText := text;
    }

    /** `handle_upload` */
    method HandleUpload(files: seq<Upload>, decodeError: DecodeError)
      modifies this
      ensures Snapshot() == UploadView(old(Snapshot()), files, decodeError)
    {
      if files == [] {
        return;
      }
      var f := files[0];
      uploadedFilename := f.name.GetOr("uploaded.json");
      match f.content
      case Err(e) =>
        error := ReadFailed + e;
      case Ok(bytes) =>
        var text := Utf8.Decode(bytes);
        if text.Some? {
          jsonText := text.value;
        } else {
          error := ReadFailed + decodeError(bytes);
        }
    }

    /** `convert` */
    method Convert(parse: Parse, render: Render)
      modifies this
      ensures Snapshot() == ConvertView(old(Snapshot()), parse, render)
    {
      error := "";
      convertedCode := "";
      envHints := [];
      var wf := parse(jsonText);
      if wf.Err? {
        error := ParseFailed + wf.error;
        return;
      }
      match wf.value
      case NotAnObject(t) =>
        error := ConvertFailed + NoGet(t);
      case Workflow(nodes) =>
        var r := ConvertWorkflow(nodes, render);
        if r.Err? {
          error := ConvertFailed + r.error;
        } else {
          convertedCode := r.value.0;
          envHints := r.value.1;
        }
    }

    /** `download_py` */
    function DownloadPy(): (r: Option<(string, string)>)
      reads this
      ensures r == DownloadOf(Snapshot())
    {
      if convertedCode == "" then None else Some((convertedCode, DownloadName))
    }
  }
}
