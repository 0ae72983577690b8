/** The schema sent to a provider that supports a strict subset of JSON Schema:
    a recursive rewriting that must only weaken the schema. */
module Schema {
  import opened ReviewTypes

  datatype TypeSpec = OneType(name: string) | Types(names: seq<string>)

  datatype Additional = Closed | Open | Matching(schema: Schema)

  datatype Variants = NoVariants | Variants(list: seq<Schema>)

  datatype Members = NoMembers | Members(table: map<string, Schema>)

  datatype Items = NoItems | Items(schema: Schema)

  /** A schema node.  A reference names a definition of the root.
      patternProperties is keyed by the pattern.  Keywords the rewriting drops
      and no other keyword depends on (bounds, pattern, const, not, contains,
      ...) are held in rest by name, each as the constraint it puts on an
      instance. */
  datatype Schema = Schema(
    defs: Members,
    ref: Option<string>,
    types: Option<TypeSpec>,
    anyOf: Variants,
    oneOf: Variants,
    allOf: Variants,
    enum: Option<seq<Json>>,
    description: Option<string>,
    title: Option<string>,
    properties: Members,
    patterns: Members,
    additional: Option<Additional>,
    required: Option<seq<string>>,
    format: Option<string>,
    prefix: Variants,
    items: Items,
    minItems: Option<int>,
    rest: map<string, Json -> bool>)

  const SUPPORTED_FORMATS: set<string> :=
    {"date-time", "time", "date", "duration", "email", "hostname", "uri", "ipv4", "ipv6", "uuid"}

  function Blank(): Schema {
    Schema(NoMembers, None, None, NoVariants, NoVariants, NoVariants, None, None, None, NoMembers, NoMembers, None, None, None, NoVariants,
           NoItems, None, map[])
  }

  // --------------------------------------------------------------- the rewriting

  /** No node on the way raises for want of a type or a combinator. */
  predicate Transformable(s: Schema)
    decreases s
  {
    && (s.defs.Members? ==> forall k :: k in s.defs.table ==> Transformable(s.defs.table[k]))
    && (s.ref.None? ==>
          && (s.anyOf.Variants? || s.oneOf.Variants? || s.allOf.Variants? || s.types.Some?)
          && (s.anyOf.Variants? ==> forall i :: 0 <= i < |s.anyOf.list| ==> Transformable(s.anyOf.list[i]))
          && (s.anyOf.NoVariants? && s.oneOf.Variants? ==> forall i :: 0 <= i < |s.oneOf.list| ==> Transformable(s.oneOf.list[i]))
          && (s.anyOf.NoVariants? && s.oneOf.NoVariants? && s.allOf.Variants? ==>
                forall i :: 0 <= i < |s.allOf.list| ==> Transformable(s.allOf.list[i]))
          && (s.types == Some(OneType("object")) && s.properties.Members? ==>
                forall k :: k in s.properties.table ==> Transformable(s.properties.table[k]))
          && (s.types == Some(OneType("array")) && s.items.Items? ==> Transformable(s.items.schema)))
  }

  /** The keywords left over for the description's summary. */
  function Leftover(s: Schema): set<string> {
    var isObject, isString, isArray :=
      s.types == Some(OneType("object")), s.types == Some(OneType("string")), s.types == Some(OneType("array"));
    s.rest.Keys +
    (if s.patterns.Members? then {"patternProperties"} else {}) +
    (if s.prefix.Variants? then {"prefixItems"} else {}) +
    (if s.properties.Members? && !isObject then {"properties"} else {}) +
    (if s.additional.Some? && !isObject then {"additionalProperties"} else {}) +
    (if s.required.Some? && !isObject then {"required"} else {}) +
    (if s.format.Some? && !(isString && s.format.value in SUPPORTED_FORMATS) then {"format"} else {}) +
    (if s.items.Items? && !isArray then {"items"} else {}) +
    (if s.minItems.Some? && !(isArray && s.minItems.value in {0, 1}) then {"minItems"} else {})
  }

  /** The description keeps its text and gains a note on what was left over. */
  function Described(s: Schema): Option<string> {
    if Leftover(s) == {} then s.description
    else if s.description.Some? then Some(s.description.value + "\n\n{...}")
    else Some("{...}")
  }

  /** _structured_output_schema. */
  function Transformed(s: Schema): Schema
    requires Transformable(s)
    decreases s
  {
    var defs :=
      if s.defs.Members? then Members(map k | k in s.defs.table :: Transformed(s.defs.table[k])) else NoMembers;
    if s.ref.Some? then Blank().(defs := defs, ref := s.ref)
    else
      var anyOf :=
        if s.anyOf.Variants? then Variants(seq(|s.anyOf.list|, i requires 0 <= i < |s.anyOf.list| => Transformed(s.anyOf.list[i])))
        else if s.oneOf.Variants? then Variants(seq(|s.oneOf.list|, i requires 0 <= i < |s.oneOf.list| => Transformed(s.oneOf.list[i])))
        else NoVariants;
      var allOf :=
        if anyOf.NoVariants? && s.allOf.Variants?
        then Variants(seq(|s.allOf.list|, i requires 0 <= i < |s.allOf.list| => Transformed(s.allOf.list[i])))
        else NoVariants;
      var isObject, isString, isArray :=
        s.types == Some(OneType("object")), s.types == Some(OneType("string")), s.types == Some(OneType("array"));
      Schema(
        defs,
        None,
        if anyOf.NoVariants? && allOf.NoVariants? then s.types else None,
        anyOf,
        NoVariants,
        allOf,
        s.enum,
        Described(s),
        s.title,
        if isObject then
          Members(if s.properties.Members? then map k | k in s.properties.table :: Transformed(s.properties.table[k]) else map[])
        else NoMembers,
        NoMembers,
        if isObject then Some(Closed) else None,
        if isObject then s.required else None,
        if isString && s.format.Some? && s.format.value in SUPPORTED_FORMATS then s.format else None,
        NoVariants,
        if isArray && s.items.Items? then Items(Transformed(s.items.schema)) else NoItems,
        if isArray && s.minItems.Some? && s.minItems.value in {0, 1} then s.minItems else None,
        map[])
  }

  // ------------------------------------------------------------------ semantics

  predicate HasType(name: string, v: Json) {
    match v
    case JNull => name == "null"
    case JBool(_) => name == "boolean"
    case JInt(_) => name == "integer" || name == "number"
    case JString(_) => name == "string"
    case JArray(_) => name == "array"
    case JObject(_) => name == "object"
  }

  predicate TypeHolds(t: TypeSpec, v: Json) {
    match t
    case OneType(name) => HasType(name, v)
    case Types(names) => exists name :: name in names && HasType(name, v)
  }

  /** What each string format admits, and which names each pattern matches. */
  datatype Dialect = Dialect(formats: (string, string) -> bool, matches: (string, string) -> bool)

  /** The root's definitions, in a dialect. */
  datatype Context = Context(defs: map<string, Schema>, dialect: Dialect)

  /** Validation, section by section of JSON Schema draft 2020-12.  fuel bounds
      the references followed in place, without descending into the instance; an
      in-place cycle, which the standard leaves undefined, accepts nothing. */
  ghost predicate Accepts(ctx: Context, s: Schema, v: Json, fuel: nat)
    decreases v, fuel, s, 1
  {
    && (s.ref.Some? ==> s.ref.value in ctx.defs && fuel > 0 && Accepts(ctx, ctx.defs[s.ref.value], v, fuel - 1))
    && Holds(ctx, s, v)
    && VariantsAccept(ctx, s, v, fuel)
    && (v.JObject? ==> ObjectAccepts(ctx, s, v))
    && (v.JArray? ==> ArrayAccepts(ctx, s, v))
  }

  /** The keywords that look at the instance alone. */
  predicate Holds(ctx: Context, s: Schema, v: Json) {
    && (s.types.Some? ==> TypeHolds(s.types.value, v))
    && (s.enum.Some? ==> v in s.enum.value)
    && (s.format.Some? && v.JString? ==> ctx.dialect.formats(s.format.value, v.s))
    && (s.minItems.Some? && v.JArray? ==> |v.items| >= s.minItems.value)
    && (forall k :: k in s.rest ==> s.rest[k](v))
  }

  ghost predicate VariantsAccept(ctx: Context, s: Schema, v: Json, fuel: nat)
    decreases v, fuel, s, 0
  {
    && (s.anyOf.Variants? ==> exists i :: 0 <= i < |s.anyOf.list| && Accepts(ctx, s.anyOf.list[i], v, fuel))
    && (s.oneOf.Variants? ==>
          exists i :: 0 <= i < |s.oneOf.list| && Accepts(ctx, s.oneOf.list[i], v, fuel) &&
                      forall j :: 0 <= j < |s.oneOf.list| && j != i ==> !Accepts(ctx, s.oneOf.list[j], v, fuel))
    && (s.allOf.Variants? ==> forall i :: 0 <= i < |s.allOf.list| ==> Accepts(ctx, s.allOf.list[i], v, fuel))
  }

  predicate Listed(s: Schema, name: string) {
    s.properties.Members? && name in s.properties.table
  }

  predicate Matched(ctx: Context, s: Schema, name: string) {
    s.patterns.Members? && exists p :: p in s.patterns.table && ctx.dialect.matches(p, name)
  }

  /** Sections 10.3.2.1 to 10.3.2.3: additionalProperties looks at the names that
      are neither listed nor matched. */
  ghost predicate ObjectAccepts(ctx: Context, s: Schema, v: Json)
    requires v.JObject?
    decreases v, 0, s, 0
  {
    && (s.properties.Members? ==>
          forall k :: k in s.properties.table && k in v.fields ==> Accepts(ctx, s.properties.table[k], v.fields[k], |ctx.defs|))
    && (s.patterns.Members? ==>
          forall p, k :: p in s.patterns.table && k in v.fields && ctx.dialect.matches(p, k) ==>
            Accepts(ctx, s.patterns.table[p], v.fields[k], |ctx.defs|))
    && (s.additional.Some? ==>
          forall k :: k in v.fields && !Listed(s, k) && !Matched(ctx, s, k) ==>
            match s.additional.value
            case Closed => false
            case Open => true
            case Matching(t) => Accepts(ctx, t, v.fields[k], |ctx.defs|))
    && (s.required.Some? ==> forall k :: k in s.required.value ==> k in v.fields)
  }

  function PrefixSize(s: Schema): nat {
    if s.prefix.Variants? then |s.prefix.list| else 0
  }

  /** Sections 10.3.1.1 and 10.3.1.2: items looks at the elements after those
      that prefixItems looks at. */
  ghost predicate ArrayAccepts(ctx: Context, s: Schema, v: Json)
    requires v.JArray?
    decreases v, 0, s, 0
  {
    && (s.prefix.Variants? ==>
          forall i :: 0 <= i < |s.prefix.list| && i < |v.items| ==> Accepts(ctx, s.prefix.list[i], v.items[i], |ctx.defs|))
    && (s.items.Items? ==>
          forall i :: PrefixSize(s) <= i < |v.items| ==> Accepts(ctx, s.items.schema, v.items[i], |ctx.defs|))
  }

  // ------------------------------------------------------------------ relaxation

  /** An object node is closed and its names are listed, not matched. */
  predicate ClosedHere(s: Schema) {
    s.types == Some(OneType("object")) ==>
      s.additional.Some? && s.additional.value.Closed? && (s.patterns.Members? ==> s.patterns.table.Keys == {})
  }

  /** An array node with items looks at all its elements alike. */
  predicate UniformHere(s: Schema) {
    s.types == Some(OneType("array")) && s.items.Items? ==> PrefixSize(s) == 0
  }

  /** Every node below is strict, as far as the rewriting reaches. */
  predicate StrictBelow(s: Schema)
    decreases s, 0
  {
    && (s.defs.Members? ==> forall k :: k in s.defs.table ==> Strict(s.defs.table[k]))
    && (s.ref.None? ==>
          && (s.anyOf.Variants? ==> forall i :: 0 <= i < |s.anyOf.list| ==> Strict(s.anyOf.list[i]))
          && (s.anyOf.NoVariants? && s.oneOf.Variants? ==> forall i :: 0 <= i < |s.oneOf.list| ==> Strict(s.oneOf.list[i]))
          && (s.anyOf.NoVariants? && s.oneOf.NoVariants? && s.allOf.Variants? ==>
                forall i :: 0 <= i < |s.allOf.list| ==> Strict(s.allOf.list[i]))
          && (s.types == Some(OneType("object")) && s.properties.Members? ==>
                forall k :: k in s.properties.table ==> Strict(s.properties.table[k]))
          && (s.types == Some(OneType("array")) && s.items.Items? ==> Strict(s.items.schema)))
  }

  /** ... and so is this one. */
  predicate Strict(s: Schema)
    decreases s, 1
  {
    StrictBelow(s) && (s.ref.None? ==> ClosedHere(s) && UniformHere(s))
  }

  /** The rewritten definitions stand where the originals stood. */
  ghost predicate Rewrites(ctx: Context, target: Context) {
    && target.dialect == ctx.dialect
    && target.defs.Keys == ctx.defs.Keys && |target.defs| == |ctx.defs|
    && forall k :: k in ctx.defs ==> Transformable(ctx.defs[k]) && Strict(ctx.defs[k]) && target.defs[k] == Transformed(ctx.defs[k])
  }

  /** What the rewriting of one node asks of an instance the node accepts: an
      object has listed properties only, and the elements of an array that
      prefixItems looked at pass the rewritten items too. */
  ghost predicate Survives(target: Context, s: Schema, v: Json)
    requires Transformable(s) && s.ref.None?
  {
    && (v.JObject? && s.types == Some(OneType("object")) ==> forall k :: k in v.fields ==> Listed(s, k))
    && (v.JArray? && s.types == Some(OneType("array")) && s.items.Items? ==> EarlyPass(target, s, v))
  }

  ghost predicate EarlyPass(target: Context, s: Schema, v: Json)
    requires v.JArray? && s.items.Items? && Transformable(s.items.schema)
  {
    forall i :: 0 <= i < PrefixSize(s) && i < |v.items| ==>
      Accepts(target, Transformed(s.items.schema), v.items[i], |target.defs|)
  }

  /** Every instance a strict schema accepts is accepted by its rewriting, at
      every depth and through every reference. */
  lemma {:induction false} Relaxes(ctx: Context, target: Context, s: Schema, v: Json, fuel: nat)
    requires Rewrites(ctx, target) && Transformable(s) && Strict(s) && Accepts(ctx, s, v, fuel)
    ensures Accepts(target, Transformed(s), v, fuel)
    decreases v, fuel, s, 3
  {
    if s.ref.Some? {
      ReferenceRelaxes(ctx, target, s, v, fuel);
    } else {
      ClosureExactly(ctx, target, s, v, fuel);
      StrictSurvives(ctx, target, s, v, fuel);
      hide Accepts, Strict, Transformable, Transformed, Rewrites, Survives;
    }
  }

  lemma StrictSurvives(ctx: Context, target: Context, s: Schema, v: Json, fuel: nat)
    requires Transformable(s) && s.ref.None? && ClosedHere(s) && UniformHere(s) && Accepts(ctx, s, v, fuel)
    ensures Survives(target, s, v)
  {
    hide Transformable, Transformed, VariantsAccept, Holds, ArrayAccepts;
  }

  /** One node over strict ones, exactly: the rewriting keeps an instance the
      node accepts if and only if the instance survives.  The only instances
      lost are objects with a property that is open or matched by a pattern,
      and arrays with an element that only prefixItems admits. */
  lemma {:induction false} ClosureExactly(ctx: Context, target: Context, s: Schema, v: Json, fuel: nat)
    requires Rewrites(ctx, target) && Transformable(s) && StrictBelow(s) && s.ref.None? && Accepts(ctx, s, v, fuel)
    ensures Accepts(target, Transformed(s), v, fuel) <==> Survives(target, s, v)
    decreases v, fuel, s, 2
  {
    hide Accepts, Strict, StrictBelow, Transformable, Transformed, Rewrites, ObjectAccepts, ArrayAccepts, VariantsHold;
    VariantsRelax(ctx, target, s, v, fuel);
    if v.JObject? && s.types == Some(OneType("object")) { ObjectKept(ctx, target, s, v, fuel); }
    if v.JArray? && s.types == Some(OneType("array")) && s.items.Items? { ItemsKept(ctx, target, s, v, fuel); }
    NodeKept(ctx, target, s, v, fuel);
  }

  /** Nothing but definitions and a reference. */
  ghost predicate OnlyReference(t: Schema) {
    t.ref.Some? && t.(defs := NoMembers, ref := None) == Blank()
  }

  lemma ReferenceBecomes(s: Schema)
    requires Transformable(s) && s.ref.Some?
    ensures OnlyReference(Transformed(s)) && Transformed(s).ref == s.ref
  {
  }

  lemma ReferenceFollowed(ctx: Context, s: Schema, v: Json, fuel: nat)
    requires s.ref.Some? && Accepts(ctx, s, v, fuel)
    ensures s.ref.value in ctx.defs && fuel > 0 && Accepts(ctx, ctx.defs[s.ref.value], v, fuel - 1)
  {
  }

  lemma ReferenceAccepts(target: Context, t: Schema, v: Json, fuel: nat)
    requires OnlyReference(t) && t.ref.value in target.defs && fuel > 0 && Accepts(target, target.defs[t.ref.value], v, fuel - 1)
    ensures Accepts(target, t, v, fuel)
  {
    var b := t.(defs := NoMembers, ref := None);
    assert b == Blank();
    assert t.types.None? && t.anyOf.NoVariants? && t.oneOf.NoVariants? && t.allOf.NoVariants? && t.enum.None? && t.rest == map[];
    assert t.properties.NoMembers? && t.patterns.NoMembers? && t.additional.None? && t.required.None? && t.format.None?;
    assert t.prefix.NoVariants? && t.items.NoItems? && t.minItems.None?;
  }

  lemma {:induction false} ReferenceRelaxes(ctx: Context, target: Context, s: Schema, v: Json, fuel: nat)
    requires Rewrites(ctx, target) && Transformable(s) && Accepts(ctx, s, v, fuel) && s.ref.Some?
    ensures Accepts(target, Transformed(s), v, fuel)
    decreases v, fuel, s, 0
  {
    hide Strict, Transformable, Accepts, Transformed, OnlyReference;
    ReferenceBecomes(s);
    ReferenceFollowed(ctx, s, v, fuel);
    var next := ctx.defs[s.ref.value];
    assert target.defs[s.ref.value] == Transformed(next);
    Relaxes(ctx, target, next, v, fuel - 1);
    ReferenceAccepts(target, Transformed(s), v, fuel);
  }

  /** The combinators of the rewritten node. */
  ghost predicate VariantsHold(target: Context, t: Schema, v: Json, fuel: nat) {
    && (t.anyOf.Variants? ==> exists i :: 0 <= i < |t.anyOf.list| && Accepts(target, t.anyOf.list[i], v, fuel))
    && (t.allOf.Variants? ==> forall i :: 0 <= i < |t.allOf.list| ==> Accepts(target, t.allOf.list[i], v, fuel))
  }

  lemma AnyOfBecomes(s: Schema)
    requires Transformable(s) && s.ref.None? && s.anyOf.Variants?
    ensures var t := Transformed(s);
            && t.anyOf.Variants? && t.allOf.NoVariants? && |t.anyOf.list| == |s.anyOf.list|
            && forall i :: 0 <= i < |s.anyOf.list| ==>
                 Transformable(s.anyOf.list[i]) && t.anyOf.list[i] == Transformed(s.anyOf.list[i])
  {
  }

  lemma OneOfBecomes(s: Schema)
    requires Transformable(s) && s.ref.None? && s.anyOf.NoVariants? && s.oneOf.Variants?
    ensures var t := Transformed(s);
            && t.anyOf.Variants? && t.allOf.NoVariants? && |t.anyOf.list| == |s.oneOf.list|
            && forall i :: 0 <= i < |s.oneOf.list| ==>
                 Transformable(s.oneOf.list[i]) && t.anyOf.list[i] == Transformed(s.oneOf.list[i])
  {
  }

  lemma AllOfBecomes(s: Schema)
    requires Transformable(s) && s.ref.None? && s.anyOf.NoVariants? && s.oneOf.NoVariants?
    ensures var t := Transformed(s);
            && t.anyOf.NoVariants? && (t.allOf.Variants? <==> s.allOf.Variants?)
            && (s.allOf.Variants? ==>
                  |t.allOf.list| == |s.allOf.list| &&
                  forall i :: 0 <= i < |s.allOf.list| ==>
                    Transformable(s.allOf.list[i]) && t.allOf.list[i] == Transformed(s.allOf.list[i]))
  {
  }

  /** What the combinators of an accepting node say. */
  lemma Chosen(ctx: Context, s: Schema, v: Json, fuel: nat)
    requires Accepts(ctx, s, v, fuel) && StrictBelow(s) && s.ref.None?
    ensures s.anyOf.Variants? ==> exists i :: 0 <= i < |s.anyOf.list| && Strict(s.anyOf.list[i]) && Accepts(ctx, s.anyOf.list[i], v, fuel)
    ensures s.anyOf.NoVariants? && s.oneOf.Variants? ==>
              exists i :: 0 <= i < |s.oneOf.list| && Strict(s.oneOf.list[i]) && Accepts(ctx, s.oneOf.list[i], v, fuel)
    ensures s.anyOf.NoVariants? && s.oneOf.NoVariants? && s.allOf.Variants? ==>
              forall i :: 0 <= i < |s.allOf.list| ==> Strict(s.allOf.list[i]) && Accepts(ctx, s.allOf.list[i], v, fuel)
  {
    hide ObjectAccepts, ArrayAccepts, Holds;
  }

  lemma {:induction false} VariantsRelax(ctx: Context, target: Context, s: Schema, v: Json, fuel: nat)
    requires Rewrites(ctx, target) && Transformable(s) && StrictBelow(s) && Accepts(ctx, s, v, fuel) && s.ref.None?
    ensures VariantsHold(target, Transformed(s), v, fuel)
    decreases v, fuel, s, 1
  {
    hide Accepts, Strict, StrictBelow, Transformable, Transformed, Rewrites;
    if s.anyOf.Variants? {
      AnyOfRelaxes(ctx, target, s, v, fuel);
    } else if s.oneOf.Variants? {
      OneOfRelaxes(ctx, target, s, v, fuel);
    } else {
      AllOfRelaxes(ctx, target, s, v, fuel);
    }
  }

  lemma {:induction false} AnyOfRelaxes(ctx: Context, target: Context, s: Schema, v: Json, fuel: nat)
    requires Rewrites(ctx, target) && Transformable(s) && StrictBelow(s) && Accepts(ctx, s, v, fuel) && s.ref.None? && s.anyOf.Variants?
    ensures VariantsHold(target, Transformed(s), v, fuel)
    decreases v, fuel, s, 0
  {
    hide Accepts, Strict, StrictBelow, Transformable, Transformed, Rewrites;
    Chosen(ctx, s, v, fuel);
    AnyOfBecomes(s);
    var i :| 0 <= i < |s.anyOf.list| && Strict(s.anyOf.list[i]) && Accepts(ctx, s.anyOf.list[i], v, fuel);
    Relaxes(ctx, target, s.anyOf.list[i], v, fuel);
  }

  lemma {:induction false} OneOfRelaxes(ctx: Context, target: Context, s: Schema, v: Json, fuel: nat)
    requires Rewrites(ctx, target) && Transformable(s) && StrictBelow(s) && Accepts(ctx, s, v, fuel) && s.ref.None?
    requires s.anyOf.NoVariants? && s.oneOf.Variants?
    ensures VariantsHold(target, Transformed(s), v, fuel)
    decreases v, fuel, s, 0
  {
    hide Accepts, Strict, StrictBelow, Transformable, Transformed, Rewrites;
    Chosen(ctx, s, v, fuel);
    OneOfBecomes(s);
    var i :| 0 <= i < |s.oneOf.list| && Strict(s.oneOf.list[i]) && Accepts(ctx, s.oneOf.list[i], v, fuel);
    Relaxes(ctx, target, s.oneOf.list[i], v, fuel);
  }

  lemma {:induction false} AllOfRelaxes(ctx: Context, target: Context, s: Schema, v: Json, fuel: nat)
    requires Rewrites(ctx, target) && Transformable(s) && StrictBelow(s) && Accepts(ctx, s, v, fuel) && s.ref.None?
    requires s.anyOf.NoVariants? && s.oneOf.NoVariants?
    ensures VariantsHold(target, Transformed(s), v, fuel)
    decreases v, fuel, s, 0
  {
    hide Accepts, Strict, StrictBelow, Transformable, Transformed, Rewrites;
    Chosen(ctx, s, v, fuel);
    AllOfBecomes(s);
    if s.allOf.Variants? {
      forall i | 0 <= i < |s.allOf.list| ensures Accepts(target, Transformed(s.allOf.list[i]), v, fuel) {
        Relaxes(ctx, target, s.allOf.list[i], v, fuel);
      }
    }
  }

  lemma ObjectBecomes(s: Schema)
    requires Transformable(s) && s.ref.None? && s.types == Some(OneType("object"))
    ensures var t := Transformed(s);
            && t.properties.Members? && t.patterns.NoMembers? && t.additional == Some(Closed) && t.required == s.required
            && (forall k :: Listed(t, k) <==> Listed(s, k))
            && forall k :: Listed(s, k) ==>
                 Transformable(s.properties.table[k]) && t.properties.table[k] == Transformed(s.properties.table[k])
  {
  }

  /** What an accepting object node over strict ones says. */
  lemma ObjectParts(ctx: Context, s: Schema, v: Json, fuel: nat)
    requires Accepts(ctx, s, v, fuel) && StrictBelow(s) && s.ref.None? && v.JObject? && s.types == Some(OneType("object"))
    ensures forall k :: Listed(s, k) && k in v.fields ==>
              Strict(s.properties.table[k]) && Accepts(ctx, s.properties.table[k], v.fields[k], |ctx.defs|)
    ensures s.required.Some? ==> forall k :: k in s.required.value ==> k in v.fields
  {
    hide VariantsAccept, Holds, ArrayAccepts;
  }

  /** A closed node without patterns that its listed properties pass. */
  lemma ClosedAccepts(target: Context, t: Schema, v: Json)
    requires v.JObject? && t.patterns.NoMembers? && t.additional == Some(Closed)
    requires forall k :: Listed(t, k) && k in v.fields ==> Accepts(target, t.properties.table[k], v.fields[k], |target.defs|)
    requires t.required.Some? ==> forall k :: k in t.required.value ==> k in v.fields
    ensures ObjectAccepts(target, t, v) <==> forall k :: k in v.fields ==> Listed(t, k)
  {
    hide Accepts;
  }

  lemma {:induction false} ObjectKept(ctx: Context, target: Context, s: Schema, v: Json, fuel: nat)
    requires Rewrites(ctx, target) && Transformable(s) && StrictBelow(s) && Accepts(ctx, s, v, fuel) && s.ref.None?
    requires v.JObject? && s.types == Some(OneType("object"))
    ensures ObjectAccepts(target, Transformed(s), v) <==> forall k :: k in v.fields ==> Listed(s, k)
    decreases v, fuel, s, 0
  {
    hide Accepts, Strict, StrictBelow, Transformable, Transformed, ObjectAccepts;
    var t := Transformed(s);
    assert |target.defs| == |ctx.defs|;
    ObjectBecomes(s);
    ObjectParts(ctx, s, v, fuel);
    forall k | Listed(t, k) && k in v.fields ensures Accepts(target, t.properties.table[k], v.fields[k], |target.defs|) {
      Relaxes(ctx, target, s.properties.table[k], v.fields[k], |ctx.defs|);
    }
    hide Rewrites, Listed;
    ClosedAccepts(target, t, v);
  }

  lemma ItemsBecome(s: Schema)
    requires Transformable(s) && s.ref.None? && s.types == Some(OneType("array")) && s.items.Items?
    ensures var t := Transformed(s);
            t.prefix.NoVariants? && t.items.Items? && Transformable(s.items.schema) && t.items.schema == Transformed(s.items.schema)
  {
  }

  /** What an accepting array node over strict ones says of the later elements. */
  lemma ItemsParts(ctx: Context, s: Schema, v: Json, fuel: nat)
    requires Accepts(ctx, s, v, fuel) && StrictBelow(s) && s.ref.None? && v.JArray?
    requires s.types == Some(OneType("array")) && s.items.Items?
    ensures Strict(s.items.schema) && forall i :: PrefixSize(s) <= i < |v.items| ==> Accepts(ctx, s.items.schema, v.items[i], |ctx.defs|)
  {
    hide VariantsAccept, Holds, ObjectAccepts;
  }

  lemma {:induction false} ItemsKept(ctx: Context, target: Context, s: Schema, v: Json, fuel: nat)
    requires Rewrites(ctx, target) && Transformable(s) && StrictBelow(s) && Accepts(ctx, s, v, fuel) && s.ref.None?
    requires v.JArray? && s.types == Some(OneType("array")) && s.items.Items?
    ensures Transformable(s.items.schema) && (ArrayAccepts(target, Transformed(s), v) <==> EarlyPass(target, s, v))
    decreases v, fuel, s, 0
  {
    hide Accepts, Strict, StrictBelow, Transformable, Transformed;
    assert |target.defs| == |ctx.defs|;
    ItemsBecome(s);
    ItemsParts(ctx, s, v, fuel);
    forall i | PrefixSize(s) <= i < |v.items| ensures Accepts(target, Transformed(s.items.schema), v.items[i], |target.defs|) {
      Relaxes(ctx, target, s.items.schema, v.items[i], |ctx.defs|);
    }
    hide Rewrites;
  }

  lemma HoldsRelaxes(ctx: Context, target: Context, s: Schema, v: Json)
    requires target.dialect == ctx.dialect && Transformable(s) && s.ref.None? && Holds(ctx, s, v)
    ensures Holds(target, Transformed(s), v)
  {
    hide TypeHolds;
  }

  /** The parts of a rewritten node that descend. */
  lemma ShapeBecomes(s: Schema)
    requires Transformable(s) && s.ref.None?
    ensures var t := Transformed(s);
            && t.ref.None? && t.oneOf.NoVariants? && t.patterns.NoMembers? && t.prefix.NoVariants?
            && (t.items.Items? ==> s.types == Some(OneType("array")) && s.items.Items?)
            && (s.types != Some(OneType("object")) ==> t.properties.NoMembers? && t.additional.None? && t.required.None?)
  {
  }

  /** A node without reference, given its parts. */
  lemma NodeKept(ctx: Context, target: Context, s: Schema, v: Json, fuel: nat)
    requires Rewrites(ctx, target) && Transformable(s) && Accepts(ctx, s, v, fuel) && s.ref.None?
    requires VariantsHold(target, Transformed(s), v, fuel)
    requires v.JObject? && s.types == Some(OneType("object")) ==>
               (ObjectAccepts(target, Transformed(s), v) <==> forall k :: k in v.fields ==> Listed(s, k))
    requires v.JArray? && s.types == Some(OneType("array")) && s.items.Items? ==>
               (ArrayAccepts(target, Transformed(s), v) <==> EarlyPass(target, s, v))
    ensures Accepts(target, Transformed(s), v, fuel) <==> Survives(target, s, v)
  {
    hide Transformable, Transformed, Holds, Rewrites, EarlyPass, Listed;
    var t := Transformed(s);
    assert target.dialect == ctx.dialect by { SameDialect(ctx, target); }
    HoldsRelaxes(ctx, target, s, v);
    ShapeBecomes(s);
    assert VariantsAccept(target, t, v, fuel);
    assert v.JObject? && s.types != Some(OneType("object")) ==> ObjectAccepts(target, t, v);
    assert v.JArray? && !(s.types == Some(OneType("array")) && s.items.Items?) ==> ArrayAccepts(target, t, v);
    hide VariantsAccept, ObjectAccepts, ArrayAccepts;
  }

  lemma SameDialect(ctx: Context, target: Context)
    requires Rewrites(ctx, target)
    ensures target.dialect == ctx.dialect
  {
    hide Transformable, Strict, Transformed;
  }

  function Definitions(s: Schema): map<string, Schema> {
    if s.defs.Members? then s.defs.table else map[]
  }

  ghost predicate RootAccepts(root: Schema, dialect: Dialect, v: Json) {
    Accepts(Context(Definitions(root), dialect), root, v, |Definitions(root)|)
  }

  lemma RootRewrites(root: Schema, dialect: Dialect)
    requires Transformable(root) && StrictBelow(root)
    ensures Definitions(Transformed(root)).Keys == Definitions(root).Keys
    ensures Rewrites(Context(Definitions(root), dialect), Context(Definitions(Transformed(root)), dialect))
  {
    var defs, after := Definitions(root), Definitions(Transformed(root));
    assert after.Keys == defs.Keys;
    assert |after| == |after.Keys| == |defs.Keys| == |defs|;
  }

  lemma StrictIsBelow(s: Schema)
    requires Strict(s)
    ensures StrictBelow(s)
  {
    hide StrictBelow;
  }

  /** Schema relaxation: rewriting a strict schema only ever admits more. */
  lemma RewritingRelaxes(root: Schema, dialect: Dialect, v: Json)
    requires Transformable(root) && Strict(root) && RootAccepts(root, dialect, v)
    ensures RootAccepts(Transformed(root), dialect, v)
  {
    hide Transformable, Strict, StrictBelow, Transformed, Accepts, Definitions, Rewrites;
    StrictIsBelow(root);
    RootRewrites(root, dialect);
    Relaxes(Context(Definitions(root), dialect), Context(Definitions(Transformed(root)), dialect), root, v, |Definitions(root)|);
  }

  // ------------------------------------------------------------ supported subset

  /** Only keywords of the provider's strict subset, at this node. */
  ghost predicate Plain(t: Schema) {
    && t.oneOf.NoVariants? && t.patterns.NoMembers? && t.prefix.NoVariants? && t.rest == map[]
    && (t.ref.Some? ==> t.(defs := NoMembers, ref := None) == Blank())
    && (t.anyOf.Variants? ==> t.allOf.NoVariants? && t.types.None?)
    && (t.allOf.Variants? ==> t.types.None?)
    && (t.properties.Members? <==> t.additional == Some(Closed)) && (t.additional.Some? ==> t.additional == Some(Closed))
    && (t.types == Some(OneType("object")) ==> t.additional == Some(Closed))
    && (t.format.Some? ==> t.format.value in SUPPORTED_FORMATS)
    && (t.minItems.Some? ==> t.minItems.value in {0, 1})
  }

  /** ... and at every depth. */
  ghost predicate Supported(t: Schema)
    decreases t
  {
    && Plain(t)
    && (t.defs.Members? ==> forall k :: k in t.defs.table ==> Supported(t.defs.table[k]))
    && (t.anyOf.Variants? ==> forall i :: 0 <= i < |t.anyOf.list| ==> Supported(t.anyOf.list[i]))
    && (t.allOf.Variants? ==> forall i :: 0 <= i < |t.allOf.list| ==> Supported(t.allOf.list[i]))
    && (t.properties.Members? ==> forall k :: k in t.properties.table ==> Supported(t.properties.table[k]))
    && (t.items.Items? ==> Supported(t.items.schema))
  }

  lemma RewritingIsPlain(s: Schema)
    requires Transformable(s)
    ensures Plain(Transformed(s))
  {
    hide Described;
  }

  lemma {:induction false} RewritingIsSupported(s: Schema)
    requires Transformable(s)
    ensures Supported(Transformed(s))
    decreases s
  {
    var t := Transformed(s);
    RewritingIsPlain(s);
    hide Plain, Described;
    if s.defs.Members? {
      forall k | k in s.defs.table ensures Supported(t.defs.table[k]) { RewritingIsSupported(s.defs.table[k]); }
    }
    if s.ref.None? {
      if s.anyOf.Variants? {
        forall i | 0 <= i < |s.anyOf.list| ensures Supported(t.anyOf.list[i]) { RewritingIsSupported(s.anyOf.list[i]); }
      } else if s.oneOf.Variants? {
        forall i | 0 <= i < |s.oneOf.list| ensures Supported(t.anyOf.list[i]) { RewritingIsSupported(s.oneOf.list[i]); }
      } else if s.allOf.Variants? {
        forall i | 0 <= i < |s.allOf.list| ensures Supported(t.allOf.list[i]) { RewritingIsSupported(s.allOf.list[i]); }
      }
      if s.types == Some(OneType("object")) && s.properties.Members? {
        forall k | k in s.properties.table ensures Supported(t.properties.table[k]) { RewritingIsSupported(s.properties.table[k]); }
      }
      if s.types == Some(OneType("array")) && s.items.Items? { RewritingIsSupported(s.items.schema); }
    }
  }

  // -------------------------------------------------------- where it does not relax

  /** The instance is accepted by the schema and rejected by its rewriting. */
  ghost predicate Lost(s: Schema, dialect: Dialect, v: Json) {
    Transformable(s) && RootAccepts(s, dialect, v) && !RootAccepts(Transformed(s), dialect, v)
  }

  /** A root of one type, with no more than patterns, a prefix and items. */
  function Bare(name: string, patterns: Members, additional: Option<Additional>, prefix: Variants, items: Items): Schema {
    Blank().(types := Some(OneType(name)), patterns := patterns, additional := additional, prefix := prefix, items := items)
  }

  lemma BlankAccepts(ctx: Context, v: Json, fuel: nat)
    ensures Accepts(ctx, Blank(), v, fuel)
  {
  }

  predicate HasPattern(u: Schema, dialect: Dialect, name: string) {
    u.patterns.Members? && exists p :: p in u.patterns.table && dialect.matches(p, name)
  }

  /** A bare object node whose patterns admit any value loses a property it left
      open or matches. */
  lemma ObjectLost(u: Schema, dialect: Dialect, name: string, value: Json)
    requires u == Bare("object", u.patterns, u.additional, u.prefix, u.items)
    requires u.patterns.Members? ==> forall p :: p in u.patterns.table ==> u.patterns.table[p] == Blank()
    requires u.additional.None? || HasPattern(u, dialect, name)
    ensures Lost(u, dialect, JObject(map[name := value]))
  {
    var v := JObject(map[name := value]);
    var ctx, t := Context(map[], dialect), Transformed(u);
    BareObject(u);
    BlankAccepts(ctx, value, 0);
    hide Transformable, Transformed, Bare, Accepts, OnlyTyped, RootAccepts, Definitions;
    OpenAccepts(ctx, u, name, value);
    ObjectDecides(ctx, u, v);
    assert name in v.fields && !Listed(t, name) && !Matched(ctx, t, name);
    assert !ObjectAccepts(ctx, t, v);
    RootIs(u, dialect, v);
    RootIs(t, dialect, v);
    ChildRejects(ctx, t, v);
  }

  lemma OpenAccepts(ctx: Context, u: Schema, name: string, value: Json)
    requires u.properties.NoMembers? && u.required.None? && (u.additional.None? || Matched(ctx, u, name))
    requires u.patterns.Members? ==> forall p :: p in u.patterns.table ==> Accepts(ctx, u.patterns.table[p], value, |ctx.defs|)
    ensures ObjectAccepts(ctx, u, JObject(map[name := value]))
  {
    hide Accepts;
  }

  lemma RootIs(u: Schema, dialect: Dialect, v: Json)
    requires Definitions(u) == map[]
    ensures RootAccepts(u, dialect, v) == Accepts(Context(map[], dialect), u, v, 0)
  {
    hide Definitions, Accepts;
  }

  /** Nothing but a type, and keywords for objects and arrays. */
  ghost predicate OnlyTyped(u: Schema, name: string) {
    && u.types == Some(OneType(name)) && u.ref.None? && u.anyOf.NoVariants? && u.oneOf.NoVariants? && u.allOf.NoVariants?
    && u.enum.None? && u.format.None? && u.minItems.None? && u.rest == map[]
  }

  lemma ObjectDecides(ctx: Context, u: Schema, v: Json)
    requires OnlyTyped(u, "object") && v.JObject? && ObjectAccepts(ctx, u, v)
    ensures Accepts(ctx, u, v, 0)
  {
    hide ObjectAccepts;
  }

  lemma ArrayDecides(ctx: Context, u: Schema, v: Json)
    requires OnlyTyped(u, "array") && v.JArray? && ArrayAccepts(ctx, u, v)
    ensures Accepts(ctx, u, v, 0)
  {
    hide ArrayAccepts;
  }

  lemma ChildRejects(ctx: Context, t: Schema, v: Json)
    ensures v.JObject? && !ObjectAccepts(ctx, t, v) ==> !Accepts(ctx, t, v, 0)
    ensures v.JArray? && !ArrayAccepts(ctx, t, v) ==> !Accepts(ctx, t, v, 0)
  {
    hide ObjectAccepts, ArrayAccepts, Holds, VariantsAccept;
  }

  lemma BareObject(u: Schema)
    requires u == Bare("object", u.patterns, u.additional, u.prefix, u.items)
    ensures Transformable(u) && Definitions(u) == map[] && Definitions(Transformed(u)) == map[]
    ensures var t := Transformed(u);
            t.properties.Members? && t.properties.table == map[] && t.patterns.NoMembers? && t.additional == Some(Closed)
    ensures OnlyTyped(u, "object") && u.properties.NoMembers? && u.required.None?
  {
  }

  lemma BareArray(u: Schema)
    requires u == Bare("array", u.patterns, u.additional, u.prefix, Items(Integers()))
    ensures Transformable(u) && Definitions(u) == map[] && Definitions(Transformed(u)) == map[]
    ensures var t := Transformed(u);
            t.prefix.NoVariants? && t.items.Items? && t.items.schema.types == Some(OneType("integer"))
    ensures OnlyTyped(u, "array") && u.items == Items(Integers())
  {
  }

  function Integers(): Schema {
    Blank().(types := Some(OneType("integer")))
  }

  /** A bare array node with integers behind a prefix of one loses what only
      the prefix admits. */
  lemma ArrayLost(u: Schema, dialect: Dialect, first: Schema, value: Json)
    requires u == Bare("array", u.patterns, u.additional, Variants([first]), Items(Integers()))
    requires Accepts(Context(map[], dialect), first, value, 0) && !value.JInt?
    ensures Lost(u, dialect, JArray([value, JInt(1)]))
  {
    var v := JArray([value, JInt(1)]);
    var ctx, t := Context(map[], dialect), Transformed(u);
    BareArray(u);
    IntegersAccept(ctx);
    IntegersReject(ctx, t.items.schema, value);
    assert u.prefix == Variants([first]);
    hide *;
    PairAccepted(ctx, u, first, value);
    ArrayDecides(ctx, u, v);
    FirstRejected(ctx, t, value);
    RootIs(u, dialect, v);
    RootIs(t, dialect, v);
    ChildRejects(ctx, t, v);
  }

  lemma PairAccepted(ctx: Context, u: Schema, first: Schema, value: Json)
    requires u.prefix == Variants([first]) && u.items == Items(Integers()) && ctx.defs == map[]
    requires Accepts(ctx, first, value, 0) && Accepts(ctx, Integers(), JInt(1), 0)
    ensures ArrayAccepts(ctx, u, JArray([value, JInt(1)]))
  {
    hide Accepts, Integers;
  }

  lemma FirstRejected(ctx: Context, t: Schema, value: Json)
    requires t.prefix.NoVariants? && t.items.Items? && ctx.defs == map[] && !Accepts(ctx, t.items.schema, value, 0)
    ensures !ArrayAccepts(ctx, t, JArray([value, JInt(1)]))
  {
    hide Accepts;
    assert [value, JInt(1)][0] == value;
  }

  lemma IntegersReject(ctx: Context, t: Schema, value: Json)
    requires t.types == Some(OneType("integer")) && !value.JInt?
    ensures !Accepts(ctx, t, value, 0)
  {
    hide ObjectAccepts, ArrayAccepts, VariantsAccept;
  }

  lemma IntegersAccept(ctx: Context)
    ensures Accepts(ctx, Integers(), JInt(1), 0)
  {
  }

  /** An object node that leaves additionalProperties open is closed by the
      rewriting: it loses an instance with a further property. */
  lemma OpenObjectIsClosed(dialect: Dialect)
    ensures Lost(Bare("object", NoMembers, None, NoVariants, NoItems), dialect, JObject(map["extra" := JNull]))
  {
    ObjectLost(Bare("object", NoMembers, None, NoVariants, NoItems), dialect, "extra", JNull);
  }

  /** A closed object node forgets its patterns: it loses an instance with a
      property that one of them matches. */
  lemma PatternsAreForgotten(dialect: Dialect)
    requires dialect.matches("^x", "x1")
    ensures Lost(Bare("object", Members(map["^x" := Blank()]), Some(Closed), NoVariants, NoItems), dialect, JObject(map["x1" := JInt(1)]))
  {
    var u := Bare("object", Members(map["^x" := Blank()]), Some(Closed), NoVariants, NoItems);
    assert "^x" in u.patterns.table;
    ObjectLost(u, dialect, "x1", JInt(1));
  }

  /** An array node forgets its prefix and keeps its items: it loses an instance
      whose first element only the prefix admits. */
  lemma PrefixIsForgotten(dialect: Dialect)
    ensures var text := Blank().(types := Some(OneType("string")));
            Lost(Bare("array", NoMembers, None, Variants([text]), Items(Integers())), dialect, JArray([JString("a"), JInt(1)]))
  {
    var text := Blank().(types := Some(OneType("string")));
    assert Accepts(Context(map[], dialect), text, JString("a"), 0);
    ArrayLost(Bare("array", NoMembers, None, Variants([text]), Items(Integers())), dialect, text, JString("a"));
  }

  /** What a node shows of itself before its subschemas are read. */
  datatype Shape = Shape(types: Option<TypeSpec>, closed: bool, patterned: bool, prefixed: bool, items: bool)

  function ShapeOf(s: Schema): Shape {
    Shape(s.types, s.additional.Some? && s.additional.value.Closed?, s.patterns.Members? && s.patterns.table.Keys != {},
          PrefixSize(s) > 0, s.items.Items?)
  }

  /** A bare node of the shape whose patterns and prefix admit anything. */
  function Exemplar(name: string, shape: Shape): Schema {
    Bare(name,
         if shape.patterned then Members(map["" := Blank()]) else NoMembers,
         if shape.closed then Some(Closed) else None,
         if shape.prefixed then Variants([Blank()]) else NoVariants,
         if shape.items then Items(Integers()) else NoItems)
  }

  /** Every root of the shape over strict nodes keeps all its instances. */
  ghost predicate ShapeRelaxes(shape: Shape) {
    forall u: Schema, dialect: Dialect, v: Json ::
      ShapeOf(u) == shape && u.ref.None? && StrictBelow(u) ==> !Lost(u, dialect, v)
  }

  /** The guard to check on a node: its shape alone keeps every instance if and
      only if an object node is closed without patterns and an array node has no
      prefix beside its items. */
  lemma ShapeRelaxesExactly(s: Schema)
    ensures ShapeRelaxes(ShapeOf(s)) <==> ClosedHere(s) && UniformHere(s)
  {
    if ClosedHere(s) && UniformHere(s) {
      forall u: Schema, dialect: Dialect, v: Json | ShapeOf(u) == ShapeOf(s) && u.ref.None? && StrictBelow(u) ensures !Lost(u, dialect, v) {
        SameGuards(s, u);
        if Transformable(u) && RootAccepts(u, dialect, v) { RewritingRelaxes(u, dialect, v); }
      }
    } else {
      var dialect := Dialect((format: string, text: string) => true, (pattern: string, name: string) => true);
      UnguardedLoses(s, dialect);
    }
  }

  lemma SameGuards(s: Schema, u: Schema)
    requires ShapeOf(u) == ShapeOf(s)
    ensures ClosedHere(u) == ClosedHere(s) && UniformHere(u) == UniformHere(s)
  {
  }

  lemma UnguardedLoses(s: Schema, dialect: Dialect)
    requires !ClosedHere(s) || !UniformHere(s)
    requires forall p, name :: dialect.matches(p, name)
    ensures !ShapeRelaxes(ShapeOf(s))
  {
    var name, shape := s.types.value.name, ShapeOf(s);
    assert shape.types == Some(OneType(name));
    assert !ClosedHere(s) ==> name == "object" && (!shape.closed || shape.patterned);
    assert ClosedHere(s) ==> name == "array" && shape.prefixed && shape.items;
    var open := !ClosedHere(s);
    var v := if open then JObject(map["extra" := JNull]) else JArray([JNull, JInt(1)]);
    hide *;
    ExemplarShape(name, shape);
    if open { OpenLoses(shape, dialect); } else { PrefixedLoses(shape, dialect); }
    ShapeLoses(shape, Exemplar(name, shape), dialect, v);
  }

  lemma ShapeLoses(shape: Shape, u: Schema, dialect: Dialect, v: Json)
    requires ShapeOf(u) == shape && u.ref.None? && StrictBelow(u) && Lost(u, dialect, v)
    ensures !ShapeRelaxes(shape)
  {
    hide ShapeOf, StrictBelow, Lost;
  }

  lemma ExemplarShape(name: string, shape: Shape)
    requires shape.types == Some(OneType(name))
    ensures var u := Exemplar(name, shape); ShapeOf(u) == shape && u.ref.None? && StrictBelow(u)
  {
    if shape.patterned { assert "" in map["" := Blank()]; }
  }

  lemma OpenLoses(shape: Shape, dialect: Dialect)
    requires !shape.closed || shape.patterned
    requires forall p, name :: dialect.matches(p, name)
    ensures Lost(Exemplar("object", shape), dialect, JObject(map["extra" := JNull]))
  {
    var u := Exemplar("object", shape);
    assert u == Bare("object", u.patterns, u.additional, u.prefix, u.items);
    if u.patterns.Members? { assert "" in u.patterns.table; }
    hide Lost;
    ObjectLost(u, dialect, "extra", JNull);
  }

  lemma PrefixedLoses(shape: Shape, dialect: Dialect)
    requires shape.prefixed && shape.items
    ensures Lost(Exemplar("array", shape), dialect, JArray([JNull, JInt(1)]))
  {
    var u := Exemplar("array", shape);
    assert u == Bare("array", u.patterns, u.additional, Variants([Blank()]), Items(Integers()));
    hide Lost;
    BlankAccepts(Context(map[], dialect), JNull, 0);
    ArrayLost(u, dialect, Blank(), JNull);
  }
}
