/** The frozen policy: tool specifications, capability records and the argument schema. */
module Policy {
  import opened Common
  import opened Json
  import opened Reasons
  import opened Approval

  datatype JsonType = TString | TNumber | TInteger | TBoolean | TObject | TArray

  /** What a schema says of one property: nothing usable, a known type, or a type word it does not know. */
  datatype PropertySpec = Untyped | Typed(t: JsonType) | UnknownType

  datatype Schema = Schema(
    typeIsObject: bool,
    properties: Option<map<Text, PropertySpec>>,  // None when the member is not a mapping
    closed: bool,                                 // additionalProperties is the constant false
    required: seq<Text>)

  datatype ToolSpec = UnreadableSpec | Spec(requiredCapability: Option<Text>, argsSchema: Option<Schema>)

  datatype Capability = Capability(
    principals: Option<seq<Text>>,  // None when the member is not a list of texts
    expiresAt: Option<Instant>,     // None when missing, not text or not a time
    tools: seq<Text>)

  datatype PolicyStore = PolicyStore(loaded: bool, allowedTools: map<Text, ToolSpec>, capabilities: map<Text, Capability>)

  predicate IsIntegerLexeme(t: Text) {
    forall i | 0 <= i < |t| :: t[i] !in {0x2e, 0x45, 0x65}
  }

  /** As Python's isinstance has it: a boolean is a number, but the schema does not let it be an integer. */
  predicate HasType(v: Json, t: JsonType) {
    match t
    case TString => v.JString?
    case TNumber => v.JNumber? || v.JBool?
    case TInteger => v.JNumber? && IsIntegerLexeme(v.lexeme)
    case TBoolean => v.JBool?
    case TObject => v.JObject?
    case TArray => v.JArray?
  }

  /** Each value has one kind of type; a boolean also counts as a number, and a whole number as an integer. */
  lemma TypesOf(v: Json, t: JsonType)
    ensures HasType(v, t) <==>
              match v
              case JNull => false
              case JBool(_) => t in {TBoolean, TNumber}
              case JNumber(lexeme) =>
                t.TNumber? || (t.TInteger? && '.' as int !in lexeme && 'e' as int !in lexeme && 'E' as int !in lexeme)
              case JString(_) => t.TString?
              case JArray(_) => t.TArray?
              case JObject(_) => t.TObject?
  {
    if v.JNumber? {
      assert forall i | 0 <= i < |v.lexeme| :: v.lexeme[i] in v.lexeme;
    }
  }

  function Keys(args: Args): set<Text> {
    set f | f in args.fields :: f.key
  }

  predicate FieldFits(f: Field, properties: map<Text, PropertySpec>) {
    f.key in properties ==>
      match properties[f.key]
      case Untyped => true
      case UnknownType => false
      case Typed(t) => HasType(f.value, t)
  }

  predicate SchemaAccepts(args: Args, schema: Schema) {
    && schema.typeIsObject
    && schema.properties.Some?
    && (schema.closed ==> Keys(args) <= schema.properties.value.Keys)
    && (forall key | key in schema.required :: key in Keys(args))
    && (forall f | f in args.fields :: FieldFits(f, schema.properties.value))
  }

  /** Everything that refuses arguments: the schema itself, a key it does not have, a key it asks for, a value of a wrong or unknown type. */
  lemma RefusedIff(args: Args, schema: Schema)
    ensures !SchemaAccepts(args, schema) <==>
              || !schema.typeIsObject || schema.properties.None?
              || (schema.closed && exists f | f in args.fields :: f.key !in schema.properties.value)
              || (exists key | key in schema.required :: forall f | f in args.fields :: f.key != key)
              || (exists f | f in args.fields ::
                    && f.key in schema.properties.value
                    && var spec := schema.properties.value[f.key];
                       spec.UnknownType? || (spec.Typed? && !HasType(f.value, spec.t)))
  {
    if schema.typeIsObject && schema.properties.Some? {
      var ps := schema.properties.value;
      assert Keys(args) <= ps.Keys <==> forall f | f in args.fields :: f.key in ps by {
        forall f | f in args.fields ensures f.key in Keys(args) {}
      }
      forall key ensures key in Keys(args) <==> exists f | f in args.fields :: f.key == key {}
      assert forall f | f in args.fields ::
               FieldFits(f, ps) <==> !(f.key in ps && (ps[f.key].UnknownType? || (ps[f.key].Typed? && !HasType(f.value, ps[f.key].t))));
    }
  }

  /** The source's walk over the schema and the arguments, leaving at the first thing that does not fit. */
  method ArgsMatchSchema(args: Args, schema: Schema) returns (ok: bool)
    ensures ok <==> SchemaAccepts(args, schema)
  {
    if !schema.typeIsObject {
      return false;
    }
    if schema.properties.None? {
      return false;
    }
    var properties := schema.properties.value;
    if schema.closed {
      if Keys(args) - properties.Keys != {} {
        return false;
      }
      assert forall key | key in Keys(args) :: key !in Keys(args) - properties.Keys;
    }
    var i := 0;
    while i < |schema.required|
      invariant 0 <= i <= |schema.required|
      invariant forall j | 0 <= j < i :: schema.required[j] in Keys(args)
    {
      if schema.required[i] !in Keys(args) {
        return false;
      }
      i := i + 1;
    }
    i := 0;
    while i < |args.fields|
      invariant 0 <= i <= |args.fields|
      invariant forall j | 0 <= j < i :: FieldFits(args.fields[j], properties)
    {
      var f := args.fields[i];
      assert f in args.fields;
      i := i + 1;
      if f.key !in properties || properties[f.key].Untyped? {
        continue;
      }
      if properties[f.key].UnknownType? {
        return false;
      }
      var expected := properties[f.key].t;
      if f.value.JBool? && expected.TInteger? {
        return false;
      }
      if !HasType(f.value, expected) {
        return false;
      }
    }
    return true;
  }

  // ----- Capabilities.

  function Holders(c: Capability): set<Text> {
    if c.principals.Some? && forall p | p in c.principals.value :: IsPrincipal(p)
    then set p | p in c.principals.value
    else {}
  }

  /** Why a presented token is refused, in the source's order; None when it stands. */
  function CapabilityDeny(policy: PolicyStore, tool: Text, caller: Text, token: Text, required: Option<Text>, now: Instant,
                          principal: Option<Text>): Option<ReasonCode> {
    if principal.None? then Some(CAPABILITY_MISSING)
    else
      var holders := if token in policy.capabilities then Holders(policy.capabilities[token]) else {};
      if principal.value !in holders || caller != principal.value then Some(CAPABILITY_MISSING)
      else
        var cap := policy.capabilities[token];
        if cap.expiresAt.None? then Some(CAPABILITY_MISSING)
        else if cap.expiresAt.value <= now then Some(CAPABILITY_MISSING)
        else if tool !in cap.tools then Some(CAPABILITY_MISSING)
        else if required.Some? && required.value != [] && token != required.value then Some(POLICY_MISS)
        else None
  }

  /** A token stands for its attested, listed holder, unexpired, for a tool it covers, as the tool's policy asks. */
  predicate CapabilityStands(policy: PolicyStore, tool: Text, caller: Text, token: Text, required: Option<Text>, now: Instant,
                             principal: Option<Text>) {
    && token in policy.capabilities
    && var cap := policy.capabilities[token];
       && principal == Some(caller)
       && cap.principals.Some? && caller in cap.principals.value
       && (forall p | p in cap.principals.value :: IsPrincipal(p))
       && cap.expiresAt.Some? && now < cap.expiresAt.value
       && tool in cap.tools
       && (required.Some? && required.value != [] ==> token == required.value)
  }

  lemma CapabilityDenyIff(policy: PolicyStore, tool: Text, caller: Text, token: Text, required: Option<Text>, now: Instant,
                          principal: Option<Text>)
    ensures CapabilityDeny(policy, tool, caller, token, required, now, principal).None?
            <==> CapabilityStands(policy, tool, caller, token, required, now, principal)
  {}

  /** A token that is not its holder's, or not good here and now, is missing; a good one that the tool does not ask for is a miss. */
  lemma CapabilityReasons(policy: PolicyStore, tool: Text, caller: Text, token: Text, required: Option<Text>, now: Instant,
                          principal: Option<Text>)
    ensures var denied := CapabilityDeny(policy, tool, caller, token, required, now, principal);
            && (denied == Some(CAPABILITY_MISSING) <==> !CapabilityStands(policy, tool, caller, token, None, now, principal))
            && (denied.None? || denied in {Some(CAPABILITY_MISSING), Some(POLICY_MISS)})
            && (denied == Some(POLICY_MISS) <==>
                  && CapabilityStands(policy, tool, caller, token, None, now, principal)
                  && required.Some? && required.value != [] && token != required.value)
  {}
}
