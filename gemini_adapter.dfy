/**
 * The Gemini chat-format translator of the inference plugin: it turns the
 * vendor-neutral chat request (tool choice, tool table with JSON-schema-like
 * parameter schemas, role-tagged messages) into the shapes the Gemini API
 * expects.
 */
module GeminiAdapter {
  import opened Wrappers
  import opened Records
  import opened JsonValues

  // ---------------------------------------------------------------------
  // Tool choice
  // ---------------------------------------------------------------------

  /** `ToolChoiceType.required | none | auto`, or `{ function: name }`. */
  datatype ToolChoice = Required | NoTool | Auto | NamedFunction(name: string)

  datatype FunctionCallingMode = ANY | NONE | AUTO

  datatype ToolConfig = ToolConfig(mode: FunctionCallingMode, allowedFunctionNames: Option<seq<string>>)

  /** An absent choice gives no config; every present choice gives exactly one mode. */
  function ToolChoiceToConfig(choice: Option<ToolChoice>): (r: Option<ToolConfig>)
    ensures r.None? <==> choice.None?
    ensures choice.Some? ==> (r.value.mode == ANY <==> (choice.value == Required || choice.value.NamedFunction?))
    ensures choice.Some? ==> (r.value.mode == NONE <==> choice.value == NoTool)
    ensures choice.Some? ==> (r.value.mode == AUTO <==> choice.value == Auto)
    ensures choice.Some? ==> (r.value.allowedFunctionNames.Some? <==> choice.value.NamedFunction?)
    ensures choice.Some? && choice.value.NamedFunction? ==> r.value.allowedFunctionNames == Some([choice.value.name])
  {
    match choice
    case None => None
    case Some(Required) => Some(ToolConfig(ANY, None))
    case Some(NoTool) => Some(ToolConfig(NONE, None))
    case Some(Auto) => Some(ToolConfig(AUTO, None))
    case Some(NamedFunction(name)) => Some(ToolConfig(ANY, Some([name])))
  }

  // ---------------------------------------------------------------------
  // Tool schemas
  // ---------------------------------------------------------------------

  datatype LeafKind = StringKind | BooleanKind | NumberKind

  /** A node of a tool's parameter schema (`ToolSchemaType`). */
  datatype SchemaNode =
    | ArrayNode(description: Option<string>, items: SchemaNode)
    | ObjectNode(description: Option<string>, required: Option<seq<string>>, properties: SchemaProperties)
    | LeafNode(kind: LeafKind, description: Option<string>, enumValues: Option<seq<Json>>, constValue: Option<Json>)

  /** The `properties` of an object node, which may be absent. */
  datatype SchemaProperties = NoProperties | Properties(entries: Record<SchemaNode>)

  /** The top level of a tool's parameter schema: always an object. */
  datatype ToolSchema = ToolSchema(required: Option<seq<string>>, properties: SchemaProperties)

  datatype SchemaType = ARRAY | OBJECT | STRING | BOOLEAN | NUMBER

  /** A Gemini schema node; a field the adapter does not write is `None`. */
  datatype GeminiSchema = GeminiSchema(
    schemaType: SchemaType,
    description: Option<string>,
    items: Option<GeminiSchema>,
    required: Option<seq<string>>,
    properties: GeminiProperties,
    enumValues: Option<seq<Json>>)

  datatype GeminiProperties = NoGeminiProperties | GeminiProperties(entries: Record<GeminiSchema>)

  function LeafType(kind: LeafKind): SchemaType
  {
    match kind
    case StringKind => STRING
    case BooleanKind => BOOLEAN
    case NumberKind => NUMBER
  }

  /**
   * The `enum` written for a leaf exactly as the adapter computes it: the
   * `const` is tested for truthiness, so a `false`, `0` or `""` constant is
   * dropped.
   */
  function LeafEnumAsWritten(enumValues: Option<seq<Json>>, constValue: Option<Json>): Option<seq<Json>>
  {
    if enumValues.Some? then enumValues
    else if constValue.Some? && Truthy(constValue.value) then Some([constValue.value])
    else None
  }

  /** A leaf whose only allowed value is `false`, `0` or `""` loses that restriction as written. */
  lemma LeafEnumAsWrittenDropsFalsyConst(c: Json)
    requires !Truthy(c)
    ensures LeafEnumAsWritten(None, Some(c)) == None
    ensures LeafEnum(None, Some(c)) == Some([c])
  {
  }

  /** The `enum` of a leaf: `enum` wins, else a present `const` becomes a one-element enum. */
  function LeafEnum(enumValues: Option<seq<Json>>, constValue: Option<Json>): (r: Option<seq<Json>>)
    ensures enumValues.Some? ==> r == enumValues
    ensures enumValues.None? ==> (r.Some? <==> constValue.Some?)
    ensures enumValues.None? && constValue.Some? ==> r == Some([constValue.value])
  {
    if enumValues.Some? then enumValues
    else if constValue.Some? then Some([constValue.value])
    else None
  }

  /** Every property schema of an object node is structurally smaller than the node. */
  lemma PropertiesBelow(def: SchemaNode)
    requires def.ObjectNode? && def.properties.Properties?
    ensures forall i :: 0 <= i < |def.properties.entries| ==> def.properties.entries[i].1 < def
  {
    var p := def.properties.entries;
    forall i | 0 <= i < |p| ensures p[i].1 < def {
      assert p[i] in p;
    }
  }

  /**
   * `convertSchemaType`: one Gemini node per schema node. Leaves take the
   * corrected `LeafEnum` rule; `ConvertLeafDepartsOnlyOnFalsyConst` says
   * where that differs from the rule as written.
   */
  function ConvertSchemaType(def: SchemaNode): GeminiSchema
    decreases def
  {
    match def
    case ArrayNode(description, items) =>
      GeminiSchema(ARRAY, description, Some(ConvertSchemaType(items)), None, NoGeminiProperties, None)
    case ObjectNode(description, required, properties) =>
      GeminiSchema(OBJECT, description, None, required,
                   if properties.Properties? then
                     PropertiesBelow(def);
                     GeminiProperties(ConvertProperties(properties.entries, def))
                   else NoGeminiProperties,
                   None)
    case LeafNode(kind, description, enumValues, constValue) =>
      GeminiSchema(LeafType(kind), description, None, None, NoGeminiProperties, LeafEnum(enumValues, constValue))
  }

  /**
   * A converted leaf carries the `enum` the code as written computes, except
   * for a falsy `const` without `enum`, which becomes a one-element enum.
   */
  lemma ConvertLeafDepartsOnlyOnFalsyConst(kind: LeafKind, description: Option<string>,
                                           enumValues: Option<seq<Json>>, constValue: Option<Json>)
    ensures var e := ConvertSchemaType(LeafNode(kind, description, enumValues, constValue)).enumValues;
            (e == LeafEnumAsWritten(enumValues, constValue)
             <==> !(enumValues.None? && constValue.Some? && !Truthy(constValue.value)))
  {
  }

  /**
   * The `reduce` over `Object.entries(properties)` that assigns
   * `properties[key] = convertSchemaType(def)` into a fresh record, as a
   * left fold. `parent` is the node owning the entries (termination only).
   */
  function ConvertProperties(props: Record<SchemaNode>, ghost parent: SchemaNode): Record<GeminiSchema>
    requires forall i :: 0 <= i < |props| ==> props[i].1 < parent
    decreases parent, |props|
  {
    if |props| == 0 then []
    else
      var n := |props| - 1;
      Assign(ConvertProperties(props[..n], parent), props[n].0, ConvertSchemaType(props[n].1))
  }

  /** The entries of the top-level schema: `schema.properties ?? {}`. */
  function TopLevelEntries(schema: ToolSchema): Record<SchemaNode>
  {
    if schema.properties.Properties? then schema.properties.entries else []
  }

  /** `toolSchemaToGemini`: an OBJECT node carrying `required` and the converted properties. */
  function ToolSchemaToGemini(schema: ToolSchema): GeminiSchema
  {
    var props := TopLevelEntries(schema);
    PropertiesBelow(ObjectNode(None, schema.required, Properties(props)));
    GeminiSchema(OBJECT, None, None, schema.required,
                 GeminiProperties(ConvertProperties(props, ObjectNode(None, schema.required, Properties(props)))), None)
  }

  /** Every record in the schema has unique keys, as JavaScript objects do. */
  predicate WellFormed(def: SchemaNode)
  {
    match def
    case ArrayNode(_, items) => WellFormed(items)
    case ObjectNode(_, _, properties) =>
      if properties.NoProperties? then true
      else
        PropertiesBelow(def);
        UniqueKeys(properties.entries) &&
        forall i :: 0 <= i < |properties.entries| ==> WellFormed(properties.entries[i].1)
    case LeafNode(_, _, _, _) => true
  }

  /** The structure both sides share: kind of node, description, `required`, keys and children in order. */
  datatype Tag = ArrayTag | ObjectTag | StringTag | BooleanTag | NumberTag

  datatype Shape = Shape(
    tag: Tag,
    description: Option<string>,
    items: Option<Shape>,
    required: Option<seq<string>>,
    properties: Option<seq<(string, Shape)>>)

  function InputShape(def: SchemaNode): Shape
  {
    match def
    case ArrayNode(description, items) =>
      Shape(ArrayTag, description, Some(InputShape(items)), None, None)
    case ObjectNode(description, required, properties) =>
      Shape(ObjectTag, description, None, required,
            if properties.Properties? then
              PropertiesBelow(def);
              var p := properties.entries;
              Some(seq(|p|, i requires 0 <= i < |p| => (p[i].0, InputShape(p[i].1))))
            else None)
    case LeafNode(kind, description, _, _) =>
      Shape(match kind case StringKind => StringTag case BooleanKind => BooleanTag case NumberKind => NumberTag,
            description, None, None, None)
  }

  /** Every property node of a Gemini node is structurally smaller than the node. */
  lemma GeminiPropertiesBelow(g: GeminiSchema)
    requires g.properties.GeminiProperties?
    ensures forall i :: 0 <= i < |g.properties.entries| ==> g.properties.entries[i].1 < g
  {
    var p := g.properties.entries;
    forall i | 0 <= i < |p| ensures p[i].1 < g {
      assert p[i] in p;
    }
  }

  function OutputShape(g: GeminiSchema): Shape
  {
    var tag := match g.schemaType
      case ARRAY => ArrayTag
      case OBJECT => ObjectTag
      case STRING => StringTag
      case BOOLEAN => BooleanTag
      case NUMBER => NumberTag;
    Shape(tag, g.description,
          if g.items.Some? then Some(OutputShape(g.items.value)) else None,
          g.required,
          if g.properties.GeminiProperties? then
            GeminiPropertiesBelow(g);
            var p := g.properties.entries;
            Some(seq(|p|, i requires 0 <= i < |p| => (p[i].0, OutputShape(p[i].1))))
          else None)
  }

  /** With unique keys the fold writes one entry per input entry, in the same order. */
  lemma {:induction false} ConvertPropertiesInOrder(props: Record<SchemaNode>, parent: SchemaNode)
    requires forall i :: 0 <= i < |props| ==> props[i].1 < parent
    requires UniqueKeys(props)
    ensures |ConvertProperties(props, parent)| == |props|
    ensures forall i :: 0 <= i < |props| ==>
              ConvertProperties(props, parent)[i] == (props[i].0, ConvertSchemaType(props[i].1))
  {
    if |props| > 0 {
      var n := |props| - 1;
      var front := props[..n];
      assert UniqueKeys(front);
      ConvertPropertiesInOrder(front, parent);
      var done := ConvertProperties(front, parent);
      KeysAt(done);
      assert props[n].0 !in Keys(done) by {
        forall i | 0 <= i < |done| ensures Keys(done)[i] != props[n].0 {
          assert Keys(done)[i] == front[i].0;
        }
      }
      var all := ConvertProperties(props, parent);
      assert all == Assign(done, props[n].0, ConvertSchemaType(props[n].1));
      assert all == done + [(props[n].0, ConvertSchemaType(props[n].1))];
      forall i | 0 <= i < |props| ensures all[i] == (props[i].0, ConvertSchemaType(props[i].1)) {
        if i < n {
          assert all[i] == done[i] && front[i] == props[i];
        }
      }
    }
  }

  /** Conversion preserves structure: node kinds map one to one, keys, `required` and children are kept. */
  lemma {:induction false} ConvertPreservesShape(def: SchemaNode)
    requires WellFormed(def)
    ensures OutputShape(ConvertSchemaType(def)) == InputShape(def)
  {
    match def
    case ArrayNode(_, items) =>
      ConvertPreservesShape(items);
    case ObjectNode(_, _, properties) =>
      if properties.Properties? {
        var p := properties.entries;
        PropertiesBelow(def);
        ConvertPropertiesInOrder(p, def);
        var g := ConvertSchemaType(def);
        var q := g.properties.entries;
        assert q == ConvertProperties(p, def);
        forall i | 0 <= i < |p| ensures (q[i].0, OutputShape(q[i].1)) == (p[i].0, InputShape(p[i].1)) {
          ConvertPreservesShape(p[i].1);
        }
        assert OutputShape(g).properties.value == InputShape(def).properties.value;
      }
    case LeafNode(_, _, _, _) =>
  }

  /** The top level is an OBJECT whose `required` is copied and whose properties have the input's keys and shapes. */
  lemma ToolSchemaToGeminiPreservesShape(schema: ToolSchema)
    requires WellFormed(ObjectNode(None, schema.required, Properties(TopLevelEntries(schema))))
    ensures ToolSchemaToGemini(schema).schemaType == OBJECT
    ensures ToolSchemaToGemini(schema).required == schema.required
    ensures OutputShape(ToolSchemaToGemini(schema))
         == InputShape(ObjectNode(None, schema.required, Properties(TopLevelEntries(schema))))
  {
    var p := TopLevelEntries(schema);
    var node := ObjectNode(None, schema.required, Properties(p));
    assert ToolSchemaToGemini(schema) == ConvertSchemaType(node);
    ConvertPreservesShape(node);
  }

  // ---------------------------------------------------------------------
  // Tool table
  // ---------------------------------------------------------------------

  datatype ToolDefinition = ToolDefinition(description: string, schema: Option<ToolSchema>)

  datatype FunctionDeclaration = FunctionDeclaration(name: string, description: string, parameters: GeminiSchema)

  datatype GeminiTool = GeminiTool(functionDeclarations: seq<FunctionDeclaration>)

  /** The parameters given to a tool that has no schema. */
  const EmptyObjectSchema := GeminiSchema(OBJECT, None, None, None, GeminiProperties([]), None)

  /** `toolsToGemini`: nothing for no tools, else one Tool with a declaration per table entry. */
  function ToolsToGemini(tools: Option<Record<ToolDefinition>>): (r: seq<GeminiTool>)
    ensures tools.None? ==> r == []
    ensures tools.Some? ==> |r| == 1 && |r[0].functionDeclarations| == |tools.value|
    ensures tools.Some? ==>
      forall i :: 0 <= i < |tools.value| ==>
        var decl := r[0].functionDeclarations[i];
        && decl.name == tools.value[i].0
        && decl.description == tools.value[i].1.description
        && (tools.value[i].1.schema.None? ==> decl.parameters == EmptyObjectSchema)
        && (tools.value[i].1.schema.Some? ==> decl.parameters == ToolSchemaToGemini(tools.value[i].1.schema.value))
  {
    match tools
    case None => []
    case Some(table) =>
      [GeminiTool(seq(|table|, i requires 0 <= i < |table| =>
         FunctionDeclaration(table[i].0, table[i].1.description,
                             if table[i].1.schema.Some? then ToolSchemaToGemini(table[i].1.schema.value)
                             else EmptyObjectSchema)))]
  }

  // ---------------------------------------------------------------------
  // Messages
  // ---------------------------------------------------------------------

  /** A tool call; `arguments` is `None` when the `arguments` key is absent. */
  datatype ToolCall = ToolCall(toolCallId: string, name: string, arguments: Option<Json>)

  datatype ContentPart = TextContent(text: string) | ImageContent(data: string, mimeType: string)

  datatype UserContent = PlainText(text: string) | ContentParts(parts: seq<ContentPart>)

  /** A vendor-neutral chat message, by role. `content` is `None` for `null`. */
  datatype Message =
    | AssistantMessage(content: Option<string>, toolCalls: Option<seq<ToolCall>>)
    | UserMessage(userContent: UserContent)
    | ToolMessage(toolCallId: string, response: Json)

  datatype Role = UserRole | AssistantRole

  datatype Part =
    | TextPart(text: string)
    | InlineDataPart(data: string, mimeType: string)
    | FunctionCallPart(name: string, args: Json)
    | FunctionResponsePart(name: string, response: Json)

  datatype GeminiMessage = GeminiMessage(role: Role, parts: seq<Part>)

  function CallsOf(toolCalls: Option<seq<ToolCall>>): seq<ToolCall>
  {
    if toolCalls.Some? then toolCalls.value else []
  }

  function PartsOf(content: UserContent): seq<ContentPart>
  {
    match content
    case PlainText(text) => [TextContent(text)]
    case ContentParts(parts) => parts
  }

  predicate HasText(content: Option<string>)
  {
    content.Some? && content.value != ""
  }

  /** `messageToGeminiMapper`: one Gemini message per input message. */
  function MessageToGemini(m: Message): (r: GeminiMessage)
    ensures m.AssistantMessage? ==>
      var calls := CallsOf(m.toolCalls);
      var offset := if HasText(m.content) then 1 else 0;
      && r.role == AssistantRole
      && |r.parts| == offset + |calls|
      && (HasText(m.content) ==> r.parts[0] == TextPart(m.content.value))
      && forall i :: 0 <= i < |calls| ==>
           r.parts[offset + i] == FunctionCallPart(calls[i].name,
                                                   if calls[i].arguments.Some? then calls[i].arguments.value else JObject([]))
    ensures m.UserMessage? ==>
      var parts := PartsOf(m.userContent);
      && r.role == UserRole
      && |r.parts| == |parts|
      && forall i :: 0 <= i < |parts| ==>
           match parts[i]
           case TextContent(text) => r.parts[i] == TextPart(text)
           case ImageContent(data, mimeType) => r.parts[i] == InlineDataPart(data, mimeType)
    ensures m.ToolMessage? ==>
      && r.role == UserRole
      && r.parts == [FunctionResponsePart(m.toolCallId,
                                          if m.response.JString? then JObject([("response", m.response)])
                                          else m.response)]
  {
    match m
    case AssistantMessage(content, toolCalls) =>
      var calls := CallsOf(toolCalls);
      var textParts := if HasText(content) then [TextPart(content.value)] else [];
      GeminiMessage(AssistantRole,
                    textParts + seq(|calls|, i requires 0 <= i < |calls| =>
                      FunctionCallPart(calls[i].name,
                                       if calls[i].arguments.Some? then calls[i].arguments.value else JObject([]))))
    case UserMessage(content) =>
      var parts := PartsOf(content);
      GeminiMessage(UserRole, seq(|parts|, i requires 0 <= i < |parts| =>
        match parts[i]
        case TextContent(text) => TextPart(text)
        case ImageContent(data, mimeType) => InlineDataPart(data, mimeType)))
    case ToolMessage(toolCallId, response) =>
      GeminiMessage(UserRole, [FunctionResponsePart(toolCallId,
                                                    if response.JString? then JObject([("response", response)])
                                                    else response)])
  }

  function MapMessages(messages: seq<Message>): (r: seq<GeminiMessage>)
    ensures |r| == |messages|
  {
    seq(|messages|, i requires 0 <= i < |messages| => MessageToGemini(messages[i]))
  }

  /** One step of the `reduce`: append, or extend the last message's parts when the role repeats. */
  function MergeStep(output: seq<GeminiMessage>, m: GeminiMessage): seq<GeminiMessage>
  {
    if |output| > 0 && output[|output| - 1].role == m.role then
      output[..|output| - 1] + [GeminiMessage(m.role, output[|output| - 1].parts + m.parts)]
    else
      output + [m]
  }

  /** The whole `reduce`, as a left fold. */
  function MergeSameRole(ms: seq<GeminiMessage>): seq<GeminiMessage>
  {
    if |ms| == 0 then [] else MergeStep(MergeSameRole(ms[..|ms| - 1]), ms[|ms| - 1])
  }

  predicate NoAdjacentSameRole(ms: seq<GeminiMessage>)
  {
    forall i :: 0 < i < |ms| ==> ms[i - 1].role != ms[i].role
  }

  /** All parts of all messages, in order. */
  function Flatten(ms: seq<GeminiMessage>): seq<Part>
  {
    if |ms| == 0 then [] else Flatten(ms[..|ms| - 1]) + ms[|ms| - 1].parts
  }

  lemma {:induction false} MergeSameRoleAlternates(ms: seq<GeminiMessage>)
    ensures NoAdjacentSameRole(MergeSameRole(ms))
    ensures |ms| > 0 ==> |MergeSameRole(ms)| > 0 && MergeSameRole(ms)[|MergeSameRole(ms)| - 1].role == ms[|ms| - 1].role
  {
    if |ms| > 0 {
      MergeSameRoleAlternates(ms[..|ms| - 1]);
    }
  }

  lemma {:induction false} MergeSameRoleShrinks(ms: seq<GeminiMessage>)
    ensures |MergeSameRole(ms)| <= |ms|
    ensures |ms| > 0 ==> |MergeSameRole(ms)| > 0
  {
    if |ms| > 0 {
      MergeSameRoleShrinks(ms[..|ms| - 1]);
    }
  }

  lemma FlattenAppend(ms: seq<GeminiMessage>, m: GeminiMessage)
    ensures Flatten(ms + [m]) == Flatten(ms) + m.parts
  {
    assert (ms + [m])[..|ms|] == ms;
  }

  lemma {:induction false} MergeSameRoleKeepsParts(ms: seq<GeminiMessage>)
    ensures Flatten(MergeSameRole(ms)) == Flatten(ms)
  {
    if |ms| > 0 {
      var front := ms[..|ms| - 1];
      var m := ms[|ms| - 1];
      var done := MergeSameRole(front);
      MergeSameRoleKeepsParts(front);
      if |done| > 0 && done[|done| - 1].role == m.role {
        var init := done[..|done| - 1];
        var last := done[|done| - 1];
        assert done == init + [last];
        FlattenAppend(init, last);
        FlattenAppend(init, GeminiMessage(m.role, last.parts + m.parts));
      } else {
        FlattenAppend(done, m);
      }
    }
  }

  /** Merging a list that already alternates changes nothing: merging is idempotent. */
  lemma {:induction false} MergeSameRoleFixesAlternating(ms: seq<GeminiMessage>)
    requires NoAdjacentSameRole(ms)
    ensures MergeSameRole(ms) == ms
  {
    if |ms| > 0 {
      var front := ms[..|ms| - 1];
      assert NoAdjacentSameRole(front);
      MergeSameRoleFixesAlternating(front);
      assert ms == front + [ms[|ms| - 1]];
    }
  }

  lemma MergeSameRoleIdempotent(ms: seq<GeminiMessage>)
    ensures MergeSameRole(MergeSameRole(ms)) == MergeSameRole(ms)
  {
    MergeSameRoleAlternates(ms);
    MergeSameRoleFixesAlternating(MergeSameRole(ms));
  }

  /** The role of every message, in order. */
  function Roles(ms: seq<GeminiMessage>): (r: seq<Role>)
    ensures |r| == |ms|
  {
    if |ms| == 0 then [] else Roles(ms[..|ms| - 1]) + [ms[|ms| - 1].role]
  }

  /** A role sequence with every run of equal neighbours replaced by one entry. */
  function CollapseRuns(rs: seq<Role>): seq<Role>
  {
    if |rs| <= 1 then rs
    else if rs[0] == rs[1] then CollapseRuns(rs[1..])
    else [rs[0]] + CollapseRuns(rs[1..])
  }

  /** Every part paired with the role of the message that carries it. */
  function RoleTagged(m: GeminiMessage): (r: seq<(Role, Part)>)
    ensures |r| == |m.parts|
    ensures forall i :: 0 <= i < |r| ==> r[i] == (m.role, m.parts[i])
  {
    seq(|m.parts|, i requires 0 <= i < |m.parts| => (m.role, m.parts[i]))
  }

  /** All parts of all messages, in order, each with its message's role. */
  function RoleTaggedFlatten(ms: seq<GeminiMessage>): seq<(Role, Part)>
  {
    if |ms| == 0 then [] else RoleTaggedFlatten(ms[..|ms| - 1]) + RoleTagged(ms[|ms| - 1])
  }

  lemma {:induction false} CollapseRunsAppend(rs: seq<Role>, r: Role)
    requires |rs| > 0
    ensures CollapseRuns(rs + [r]) == if rs[|rs| - 1] == r then CollapseRuns(rs) else CollapseRuns(rs) + [r]
  {
    if |rs| > 1 {
      assert (rs + [r])[1..] == rs[1..] + [r];
      CollapseRunsAppend(rs[1..], r);
    }
  }

  /** The roles of the merged list are the input roles with each run of one role collapsed to one entry. */
  lemma {:induction false} MergeSameRoleCollapsesRuns(ms: seq<GeminiMessage>)
    ensures Roles(MergeSameRole(ms)) == CollapseRuns(Roles(ms))
  {
    if |ms| > 0 {
      var front := ms[..|ms| - 1];
      var m := ms[|ms| - 1];
      var done := MergeSameRole(front);
      MergeSameRoleCollapsesRuns(front);
      if |front| > 0 {
        MergeSameRoleAlternates(front);
        CollapseRunsAppend(Roles(front), m.role);
        if |done| > 0 && done[|done| - 1].role == m.role {
          var init := done[..|done| - 1];
          var merged := GeminiMessage(m.role, done[|done| - 1].parts + m.parts);
          assert (init + [merged])[..|init|] == init;
          assert done[..|done| - 1] == init;
        } else {
          assert (done + [m])[..|done|] == done;
        }
      }
    }
  }

  /** Merging keeps every part, in order, under the role it had: a user part never becomes an assistant part. */
  lemma {:induction false} MergeSameRoleKeepsRoleOfParts(ms: seq<GeminiMessage>)
    ensures RoleTaggedFlatten(MergeSameRole(ms)) == RoleTaggedFlatten(ms)
  {
    if |ms| > 0 {
      var front := ms[..|ms| - 1];
      var m := ms[|ms| - 1];
      var done := MergeSameRole(front);
      MergeSameRoleKeepsRoleOfParts(front);
      if |done| > 0 && done[|done| - 1].role == m.role {
        var init := done[..|done| - 1];
        var last := done[|done| - 1];
        var merged := GeminiMessage(m.role, last.parts + m.parts);
        assert done == init + [last];
        assert (init + [last])[..|init|] == init;
        assert (init + [merged])[..|init|] == init;
        assert RoleTagged(merged) == RoleTagged(last) + RoleTagged(m);
      } else {
        assert (done + [m])[..|done|] == done;
      }
    }
  }

  /**
   * `messagesToGemini`: map every message, then fold them into an output
   * list that is extended in place, pushing the parts of a message onto the
   * previous one when both have the same role.
   */
  method MessagesToGemini(messages: seq<Message>) returns (output: seq<GeminiMessage>)
    ensures output == MergeSameRole(MapMessages(messages))
    ensures NoAdjacentSameRole(output)
    ensures |output| <= |messages|
    ensures |messages| > 0 ==> |output| > 0
    ensures Flatten(output) == Flatten(MapMessages(messages))
    ensures Roles(output) == CollapseRuns(Roles(MapMessages(messages)))
    ensures RoleTaggedFlatten(output) == RoleTaggedFlatten(MapMessages(messages))
  {
    var mapped := MapMessages(messages);
    output := [];
    var i := 0;
    while i < |mapped|
      invariant 0 <= i <= |mapped|
      invariant output == MergeSameRole(mapped[..i])
    {
      var message := mapped[i];
      if |output| > 0 && output[|output| - 1].role == message.role {
        var previousMessage := output[|output| - 1];
        output := output[..|output| - 1] + [GeminiMessage(previousMessage.role, previousMessage.parts + message.parts)];
      } else {
        output := output + [message];
      }
      assert mapped[..i + 1][..i] == mapped[..i];
      i := i + 1;
    }
    assert mapped[..i] == mapped;
    MergeSameRoleAlternates(mapped);
    MergeSameRoleShrinks(mapped);
    MergeSameRoleKeepsParts(mapped);
    MergeSameRoleCollapsesRuns(mapped);
    MergeSameRoleKeepsRoleOfParts(mapped);
  }
}
