/**
 * The block registry (`kirara_ai/workflow/core/block/registry.py`): a table of block classes
 * keyed by `"group:id"`, their localized names, and the type system that records the types of
 * their ports; plus the extraction of a block's input, output and configuration descriptors.
 *
 * Python reflection (`inspect.signature`, `get_origin`, `get_args`) is replaced by explicit
 * values: a block class carries its port tables and its constructor's parameter list, and an
 * annotation is either bare or `Annotated[...]`. `TypeSystem` is defined in a file that is not
 * part of this model: it is kept as the set of type names registered with it, and its queries
 * (`get_type_name`, `extract_type_info`, `is_compatible`, `get_compatibility_map`) are the
 * fields of a `TypeOracle`, about which nothing is assumed.
 */
module Registry {
  import opened Wrappers
  import opened Messages

  // ---------------------------------------------------------------------------
  // Reflected shapes
  // ---------------------------------------------------------------------------

  /** `ParamMeta(label=..., description=..., options_provider=...)`; a provider is an opaque token. */
  datatype ParamMeta = ParamMeta(labelText: string, description: Option<string>, optionsProvider: Option<string>)

  /** One metadata object after the type in `Annotated[T, m1, m2, ...]`. */
  datatype Metadata = ParamMetadata(meta: ParamMeta) | OtherMetadata(repr: string)

  /**
   * A parameter annotation as `get_origin`/`get_args` see it. `Bare` is anything whose origin is
   * not `Annotated` (`str`, `Optional[str]`, `List[X]`, ...), named by its text. For
   * `Annotated`, `get_args` is `(actual,) + metadata`, or empty when `actual` is `None`.
   */
  datatype Annotation =
    | Bare(typeName: string)
    | Annotated(actual: Option<Annotation>, metadata: seq<Metadata>)

  /** `inspect.Parameter`: `default == None` stands for `Parameter.empty`. */
  datatype Param = Param(name: string, annotation: Annotation, default: Option<PyValue>)

  /** The triple `TypeSystem.extract_type_info` returns: type name, required, default. */
  datatype TypeInfo = TypeInfo(typeName: string, required: bool, default: PyValue)

  /** `extract_type_info` is called on a parameter and on a port's data type. */
  datatype Reflected = OfParam(param: Param) | OfType(dataType: Annotation)

  /** `TypeSystem`, as the set of type names registered with `register_type`. */
  datatype TypeSystem = TypeSystem(registered: set<string>)

  /** A freshly constructed `TypeSystem()`. */
  function FreshTypeSystem(): TypeSystem {
    TypeSystem({})
  }

  /** The queries of `TypeSystem` whose implementation is not part of this model. */
  datatype TypeOracle = TypeOracle(
    typeName: Annotation -> string,
    extractTypeInfo: Reflected -> TypeInfo,
    isCompatible: (TypeSystem, string, string) -> bool,
    compatibilityMap: TypeSystem -> map<string, map<string, bool>>)

  /** `Input(name, label, data_type, description, nullable=..., default=...)`; no default is `None`. */
  datatype InputInfo = InputInfo(labelText: string, description: string, dataType: Annotation, nullable: bool, default: Option<PyValue>)

  /** `Output(name, label, data_type, description)`. */
  datatype OutputInfo = OutputInfo(labelText: string, description: string, dataType: Annotation)

  /** `BlockInput`: the descriptor of an input port. */
  datatype BlockInput = BlockInput(name: string, labelText: string, description: string, typeName: string, required: bool, default: PyValue)

  /** `BlockOutput`: the descriptor of an output port. */
  datatype BlockOutput = BlockOutput(name: string, labelText: string, description: string, typeName: string)

  /** `BlockConfig`: the descriptor of a configurable constructor parameter. */
  datatype BlockConfig = BlockConfig(
    name: string,
    description: Option<string>,
    typeName: string,
    required: bool,
    default: PyValue,
    labelText: string,
    hasOptions: bool,
    options: seq<string>,
    optionsProvider: Option<string>)

  // ---------------------------------------------------------------------------
  // extract_block_param
  // ---------------------------------------------------------------------------

  /** The annotation left after removing every `Annotated` layer; `None` when a layer has no args. */
  function Unwrap(a: Annotation): (r: Option<Annotation>)
    ensures r.Some? ==> r.value.Bare?
  {
    match a
    case Bare(_) => Some(a)
    case Annotated(None, _) => None
    case Annotated(Some(t), _) => Unwrap(t)
  }

  /** Type, required-ness and default of a parameter, read from its unwrapped annotation alone. */
  function UnderlyingTypeInfo(p: Param, oracle: TypeOracle): TypeInfo {
    match Unwrap(p.annotation)
    case None => TypeInfo("Any", true, PyNone)
    case Some(b) => oracle.extractTypeInfo(OfParam(Param(p.name, b, p.default)))
  }

  /** The `ParamMeta` that decides a parameter's presentation: the first metadata of its outer `Annotated`. */
  function OuterParamMeta(a: Annotation): Option<ParamMeta> {
    if a.Annotated? && a.actual.Some? && |a.metadata| > 0 && a.metadata[0].ParamMetadata?
    then Some(a.metadata[0].meta)
    else None
  }

  /**
   * `extract_block_param`: a bare annotation is read by `extract_type_info`; an `Annotated` layer
   * takes its presentation from its `ParamMeta` and everything else from the wrapped type.
   */
  function ExtractBlockParam(p: Param, oracle: TypeOracle): (c: BlockConfig)
    ensures c.name == p.name && c.options == []
    ensures TypeInfo(c.typeName, c.required, c.default) == UnderlyingTypeInfo(p, oracle)
    ensures c.hasOptions <==> c.optionsProvider.Some?
    ensures OuterParamMeta(p.annotation).None? ==>
      c.labelText == p.name && c.description == None && !c.hasOptions
    ensures OuterParamMeta(p.annotation).Some? ==>
      var m := OuterParamMeta(p.annotation).value;
      c.labelText == m.labelText && c.description == m.description && c.optionsProvider == m.optionsProvider
    decreases p.annotation
  {
    match p.annotation
    case Bare(_) =>
      var info := oracle.extractTypeInfo(OfParam(p));
      BlockConfig(p.name, None, info.typeName, info.required, info.default, p.name, false, [], None)
    case Annotated(None, _) =>
      BlockConfig(p.name, None, "Any", true, PyNone, p.name, false, [], None)
    case Annotated(Some(t), metadata) =>
      var inner := ExtractBlockParam(Param(p.name, t, p.default), oracle);
      if |metadata| > 0 && metadata[0].ParamMetadata? then
        var m := metadata[0].meta;
        BlockConfig(p.name, m.description, inner.typeName, inner.required, inner.default,
                    m.labelText, m.optionsProvider.Some?, [], m.optionsProvider)
      else
        BlockConfig(p.name, None, inner.typeName, inner.required, inner.default,
                    p.name, false, [], None)
  }

  /** Wrapping a type in metadata never changes the type, required-ness or default extracted for it. */
  lemma MetadataTransparent(name: string, t: Annotation, default: Option<PyValue>, metadata: seq<Metadata>, oracle: TypeOracle)
    ensures var bare := ExtractBlockParam(Param(name, t, default), oracle);
            var wrapped := ExtractBlockParam(Param(name, Annotated(Some(t), metadata), default), oracle);
            wrapped.typeName == bare.typeName && wrapped.required == bare.required && wrapped.default == bare.default
  {
  }

  // ---------------------------------------------------------------------------
  // Port descriptors
  // ---------------------------------------------------------------------------

  /** The descriptor `extract_block_info` builds for input `name`. */
  function InputDescriptor(name: string, info: InputInfo, oracle: TypeOracle): (d: BlockInput)
    ensures d.required == !info.nullable
    ensures d.typeName == oracle.extractTypeInfo(OfType(info.dataType)).typeName
    ensures d.default == info.default.GetOr(PyNone)
  {
    BlockInput(name, info.labelText, info.description, oracle.extractTypeInfo(OfType(info.dataType)).typeName,
               !info.nullable, info.default.GetOr(PyNone))
  }

  /** The descriptor `extract_block_info` builds for output `name`: name, labelText, description and type only. */
  function OutputDescriptor(name: string, info: OutputInfo, oracle: TypeOracle): (d: BlockOutput)
    ensures d.typeName == oracle.extractTypeInfo(OfType(info.dataType)).typeName
  {
    BlockOutput(name, info.labelText, info.description, oracle.extractTypeInfo(OfType(info.dataType)).typeName)
  }

  /** The names of a parameter list, in order. */
  function ParamNames(params: seq<Param>): (names: seq<string>)
    ensures |names| == |params| && forall i :: 0 <= i < |params| ==> names[i] == params[i].name
  {
    if params == [] then [] else [params[0].name] + ParamNames(params[1..])
  }

  /** No two parameters of a signature share a name. */
  predicate DistinctNames(params: seq<Param>) {
    forall i, j :: 0 <= i < j < |params| ==> params[i].name != params[j].name
  }

  /** A constructor parameter is configurable unless it is `self` or a builtin parameter. */
  predicate IsConfigurable(p: Param, builtin: seq<string>) {
    p.name != "self" && p.name !in builtin
  }

  /** The composite key `"group:id"`. */
  function FullName(groupId: string, blockId: string): (key: string)
    ensures ':' in key
  {
    assert (groupId + ":" + blockId)[|groupId|] == ':';
    groupId + ":" + blockId
  }

  /** The name `get_block_type_name` makes up for a class that was never registered. */
  function UnregisteredName(moduleName: string, name: string): (r: string)
    ensures ':' !in moduleName && ':' !in name ==> ':' !in r
  {
    "!!" + moduleName + "." + name
  }

  // ---------------------------------------------------------------------------
  // Block classes
  // ---------------------------------------------------------------------------

  /** A block class: what reflection reads from it, and the `id` attribute `register` stamps on it. */
  class BlockClass {
    const moduleName: string
    const name: string
    const inputs: map<string, InputInfo>
    const outputs: map<string, OutputInfo>
    /** The parameters of its `__init__`, `self` included. */
    const initParams: seq<Param>
    var id: Option<string>

    constructor (moduleName: string, name: string, inputs: map<string, InputInfo>,
                 outputs: map<string, OutputInfo>, initParams: seq<Param>)
      ensures this.moduleName == moduleName && this.name == name && this.inputs == inputs
      ensures this.outputs == outputs && this.initParams == initParams && id == None
    {
      this.moduleName := moduleName;
      this.name := name;
      this.inputs := inputs;
      this.outputs := outputs;
      this.initParams := initParams;
      id := None;
    }
  }

  // ---------------------------------------------------------------------------
  // BlockRegistry
  // ---------------------------------------------------------------------------

  /**
   * The registry's table: the keys, each once, in insertion order, exactly those of the dict;
   * every key is a composite `"group:id"`; only non-empty localized names are stored.
   */
  ghost predicate ValidTable(blocks: map<string, BlockClass>, order: seq<string>, names: map<string, string>) {
    && (forall i, j :: 0 <= i < j < |order| ==> order[i] != order[j])
    && (forall k :: k in blocks <==> k in order)
    && (forall k :: k in blocks ==> ':' in k)
    && (forall k :: k in names ==> names[k] != "")
  }

  /** The classes of a table in the order of its keys. */
  function Listed(blocks: map<string, BlockClass>, order: seq<string>): (r: seq<BlockClass>)
    requires forall k :: k in order ==> k in blocks
    ensures |r| == |order|
    ensures forall i :: 0 <= i < |order| ==> r[i] == blocks[order[i]]
  {
    seq(|order|, i requires 0 <= i < |order| => blocks[order[i]])
  }

  /** Adding a new key at the end lists its class last and leaves the earlier ones in place. */
  lemma AppendListed(blocks: map<string, BlockClass>, order: seq<string>, key: string, cls: BlockClass)
    requires forall k :: k in order ==> k in blocks
    requires key !in order
    ensures Listed(blocks[key := cls], order + [key]) == Listed(blocks, order) + [cls]
  {
    var after := Listed(blocks[key := cls], order + [key]);
    forall i | 0 <= i < |order| ensures after[i] == blocks[order[i]] {
      assert (order + [key])[i] == order[i] && order[i] != key;
    }
  }

  /** Adding a new composite key, with an optional localized name, keeps the table well formed. */
  lemma AddKeepsTable(blocks: map<string, BlockClass>, order: seq<string>, names: map<string, string>,
                      key: string, cls: BlockClass, name: Option<string>)
    requires ValidTable(blocks, order, names)
    requires key !in blocks && ':' in key
    ensures ValidTable(blocks[key := cls], order + [key],
                       if name.Some? && name.value != "" then names[key := name.value] else names)
  {
    assert key !in order;
  }

  class BlockRegistry {
    /** `_blocks`: key to class; `order` is the dict's insertion order of its keys. */
    var blocks: map<string, BlockClass>
    var order: seq<string>
    /** `_localized_names`. */
    var localizedNames: map<string, string>
    /** `_type_system`. */
    var types: TypeSystem
    const oracle: TypeOracle
    /** The parameters of the base `Block.__init__`. */
    const baseParams: seq<Param>

    /**
     * The dict's keys, each once, in insertion order; every key is a composite `"group:id"`;
     * only non-empty localized names are stored.
     */
    ghost predicate Valid()
      reads this
    {
      ValidTable(blocks, order, localizedNames)
    }

    constructor (oracle: TypeOracle, baseParams: seq<Param>)
      ensures Valid()
      ensures blocks == map[] && order == [] && localizedNames == map[] && types == FreshTypeSystem()
      ensures this.oracle == oracle && this.baseParams == baseParams
    {
      blocks := map[];
      order := [];
      localizedNames := map[];
      types := FreshTypeSystem();
      this.oracle := oracle;
      this.baseParams := baseParams;
    }

    /** `get(full_name)`: the class registered under the key, if any. */
    function Get(fullName: string): (r: Option<BlockClass>)
      reads this
      ensures r.Some? <==> fullName in blocks
      ensures r.Some? ==> r.value == blocks[fullName]
    {
      if fullName in blocks then Some(blocks[fullName]) else None
    }

    /** `get_localized_name(block_id)`: the stored name, or the key itself. */
    function GetLocalizedName(blockId: string): (r: string)
      reads this
      requires Valid()
      ensures blockId in localizedNames ==> r == localizedNames[blockId] && r != ""
      ensures blockId !in localizedNames ==> r == blockId
    {
      if blockId in localizedNames then localizedNames[blockId] else blockId
    }

    /** `get_all_types()`: the registered classes in insertion order. */
    function GetAllTypes(): (r: seq<BlockClass>)
      reads this
      requires Valid()
      ensures |r| == |order|
      ensures forall i :: 0 <= i < |order| ==> r[i] == blocks[order[i]]
    {
      Listed(blocks, order)
    }

    /** `get_builtin_params()`: the parameter names of the base `Block.__init__`, in order. */
    function GetBuiltinParams(): (names: seq<string>)
      ensures |names| == |baseParams|
      ensures forall i :: 0 <= i < |baseParams| ==> names[i] == baseParams[i].name
    {
      ParamNames(baseParams)
    }

    /** `is_type_compatible`: delegated to the current type system. */
    function IsTypeCompatible(source: string, target: string): (r: bool)
      reads this
      ensures r == oracle.isCompatible(types, source, target)
    {
      oracle.isCompatible(types, source, target)
    }

    /** `get_type_compatibility_map`: delegated to the current type system. */
    function GetTypeCompatibilityMap(): (r: map<string, map<string, bool>>)
      reads this
      ensures r == oracle.compatibilityMap(types)
    {
      oracle.compatibilityMap(types)
    }

    /** The type names `register` records for a class: those of its input and output data types. */
    function PortTypeNames(cls: BlockClass): set<string> {
      (set n | n in cls.inputs :: oracle.typeName(cls.inputs[n].dataType))
      + (set n | n in cls.outputs :: oracle.typeName(cls.outputs[n].dataType))
    }

    /** The loops of `register` that pass the type of every input, then every output, to `register_type`. */
    method PortTypeNamesOf(blockClass: BlockClass) returns (registered: set<string>)
      ensures registered == PortTypeNames(blockClass)
    {
      registered := {};
      var pending := blockClass.inputs.Keys;
      while pending != {}
        invariant pending <= blockClass.inputs.Keys
        invariant registered ==
          set n | n in blockClass.inputs.Keys - pending :: oracle.typeName(blockClass.inputs[n].dataType)
        decreases pending
      {
        var n :| n in pending;
        registered := registered + {oracle.typeName(blockClass.inputs[n].dataType)};
        pending := pending - {n};
      }
      ghost var afterInputs := registered;
      pending := blockClass.outputs.Keys;
      while pending != {}
        invariant pending <= blockClass.outputs.Keys
        invariant registered == afterInputs +
          set n | n in blockClass.outputs.Keys - pending :: oracle.typeName(blockClass.outputs[n].dataType)
        decreases pending
      {
        var n :| n in pending;
        registered := registered + {oracle.typeName(blockClass.outputs[n].dataType)};
        pending := pending - {n};
      }
    }

    /**
     * `register`: rejects a key that is already taken, changing nothing; otherwise adds the class
     * at the end of the table, stamps its `id`, stores a non-empty localized name and registers
     * the type of every port.
     */
    method Register(blockId: string, groupId: string, blockClass: BlockClass, localizedName: Option<string>)
      returns (r: Outcome)
      requires Valid()
      modifies this, blockClass
      ensures Valid()
      ensures var key := FullName(groupId, blockId);
        key in old(blocks) ==>
          && r == Fail("Block " + key + " already registered")
          && blocks == old(blocks) && order == old(order) && localizedNames == old(localizedNames)
          && types == old(types) && blockClass.id == old(blockClass.id)
    ensures var key := FullName(groupId, blockId);
        key !in old(blocks) ==>
          && r == Pass
          && blocks == old(blocks)[key := blockClass] && order == old(order) + [key]
          && Get(key) == Some(blockClass)
          && GetAllTypes() == old(GetAllTypes()) + [blockClass]
          && blockClass.id == Some(blockId)
          && localizedNames == (if localizedName.Some? && localizedName.value != ""
                                then old(localizedNames)[key := localizedName.value]
                                else old(localizedNames))
          && types.registered == old(types.registered) + PortTypeNames(blockClass)
    {
      var fullName := FullName(groupId, blockId);
      if fullName in blocks {
        return Fail("Block " + fullName + " already registered");
      }
      AddKeepsTable(blocks, order, localizedNames, fullName, blockClass, localizedName);
      AppendListed(blocks, order, fullName, blockClass);
      blocks := blocks[fullName := blockClass];
      order := order + [fullName];
      blockClass.id := Some(blockId);
      if localizedName.Some? && localizedName.value != "" {
        localizedNames := localizedNames[fullName := localizedName.value];
      }
      var registered := PortTypeNamesOf(blockClass);
      types := TypeSystem(types.registered + registered);
      r := Pass;
    }

    /**
     * `clear`: empties the block table and installs a fresh type system; localized names are kept.
     */
    method Clear()
      requires Valid()
      modifies this
      ensures Valid()
      ensures blocks == map[] && order == [] && types == FreshTypeSystem()
      ensures localizedNames == old(localizedNames)
      ensures forall k :: Get(k) == None
    {
      blocks := map[];
      order := [];
      types := FreshTypeSystem();
    }

    /**
     * `get_block_type_name`: the first key, in insertion order, registered for the class; for a
     * class never registered, `"!!module.Name"` and a warning (`warned`).
     */
    method GetBlockTypeName(blockClass: BlockClass) returns (typeName: string, warned: bool)
      requires Valid()
      ensures warned <==> forall k :: k in blocks ==> blocks[k] != blockClass
      ensures !warned ==>
        exists i :: 0 <= i < |order| && order[i] == typeName && blocks[typeName] == blockClass
          && forall j :: 0 <= j < i ==> blocks[order[j]] != blockClass
      ensures warned ==> typeName == UnregisteredName(blockClass.moduleName, blockClass.name)
      ensures warned && ':' !in blockClass.moduleName && ':' !in blockClass.name ==> typeName !in blocks
    {
      var i := 0;
      while i < |order|
        invariant 0 <= i <= |order|
        invariant forall j :: 0 <= j < i ==> blocks[order[j]] != blockClass
      {
        if blocks[order[i]] == blockClass {
          return order[i], false;
        }
        i := i + 1;
      }
      typeName := UnregisteredName(blockClass.moduleName, blockClass.name);
      warned := true;
    }

    /**
     * `extract_block_info`: the input, output and configuration descriptors of a class. Each
     * port's type name comes from `extract_type_info` and is registered with the type system;
     * the configuration holds every constructor parameter except `self` and the builtin ones.
     */
    method ExtractBlockInfo(blockType: BlockClass)
      returns (inputs: map<string, BlockInput>, outputs: map<string, BlockOutput>, configs: map<string, BlockConfig>)
      requires DistinctNames(blockType.initParams)
      modifies this
      ensures blocks == old(blocks) && order == old(order) && localizedNames == old(localizedNames)
      ensures inputs.Keys == blockType.inputs.Keys
      ensures forall n :: n in inputs ==> inputs[n] == InputDescriptor(n, blockType.inputs[n], oracle)
      ensures outputs.Keys == blockType.outputs.Keys
      ensures forall n :: n in outputs ==> outputs[n] == OutputDescriptor(n, blockType.outputs[n], oracle)
      ensures forall p :: p in blockType.initParams && IsConfigurable(p, GetBuiltinParams()) ==>
        p.name in configs && configs[p.name] == ExtractBlockParam(p, oracle)
      ensures forall n :: n in configs ==>
        exists p :: p in blockType.initParams && p.name == n && IsConfigurable(p, GetBuiltinParams())
      ensures types.registered == old(types.registered)
        + (set n | n in blockType.inputs :: oracle.extractTypeInfo(OfType(blockType.inputs[n].dataType)).typeName)
        + (set n | n in blockType.outputs :: oracle.extractTypeInfo(OfType(blockType.outputs[n].dataType)).typeName)
    {
      var inputTypes, outputTypes;
      inputs, inputTypes := InputDescriptors(blockType, oracle);
      outputs, outputTypes := OutputDescriptors(blockType, oracle);
      types := TypeSystem(types.registered + inputTypes + outputTypes);
      configs := ConfigDescriptors(blockType.initParams, GetBuiltinParams(), oracle);
    }
  }

  /** The first loop of `extract_block_info`: a descriptor per input, and the type names registered. */
  method InputDescriptors(blockType: BlockClass, oracle: TypeOracle)
    returns (inputs: map<string, BlockInput>, typeNames: set<string>)
    ensures inputs.Keys == blockType.inputs.Keys
    ensures forall n :: n in inputs ==> inputs[n] == InputDescriptor(n, blockType.inputs[n], oracle)
    ensures typeNames ==
      set n | n in blockType.inputs :: oracle.extractTypeInfo(OfType(blockType.inputs[n].dataType)).typeName
  {
    typeNames := {};
    inputs := map[];
    var pending := blockType.inputs.Keys;
    while pending != {}
      invariant pending <= blockType.inputs.Keys
      invariant inputs.Keys == blockType.inputs.Keys - pending
      invariant forall n :: n in inputs ==> inputs[n] == InputDescriptor(n, blockType.inputs[n], oracle)
      invariant typeNames ==
        set n | n in blockType.inputs.Keys - pending :: oracle.extractTypeInfo(OfType(blockType.inputs[n].dataType)).typeName
      decreases pending
    {
      var name :| name in pending;
      var info := blockType.inputs[name];
      var typeName := oracle.extractTypeInfo(OfType(info.dataType)).typeName;
      typeNames := typeNames + {typeName};
      inputs := inputs[name := BlockInput(name, info.labelText, info.description, typeName,
                                          !info.nullable, info.default.GetOr(PyNone))];
      pending := pending - {name};
    }
  }

  /** The second loop of `extract_block_info`: a descriptor per output, and the type names registered. */
  method OutputDescriptors(blockType: BlockClass, oracle: TypeOracle)
    returns (outputs: map<string, BlockOutput>, typeNames: set<string>)
    ensures outputs.Keys == blockType.outputs.Keys
    ensures forall n :: n in outputs ==> outputs[n] == OutputDescriptor(n, blockType.outputs[n], oracle)
    ensures typeNames ==
      set n | n in blockType.outputs :: oracle.extractTypeInfo(OfType(blockType.outputs[n].dataType)).typeName
  {
    typeNames := {};
    outputs := map[];
    var pending := blockType.outputs.Keys;
    while pending != {}
      invariant pending <= blockType.outputs.Keys
      invariant outputs.Keys == blockType.outputs.Keys - pending
      invariant forall n :: n in outputs ==> outputs[n] == OutputDescriptor(n, blockType.outputs[n], oracle)
      invariant typeNames ==
        set n | n in blockType.outputs.Keys - pending :: oracle.extractTypeInfo(OfType(blockType.outputs[n].dataType)).typeName
      decreases pending
    {
      var name :| name in pending;
      var info := blockType.outputs[name];
      var typeName := oracle.extractTypeInfo(OfType(info.dataType)).typeName;
      typeNames := typeNames + {typeName};
      outputs := outputs[name := BlockOutput(name, info.labelText, info.description, typeName)];
      pending := pending - {name};
    }
  }

  /** The third loop of `extract_block_info`: a descriptor per configurable constructor parameter. */
  method ConfigDescriptors(params: seq<Param>, builtin: seq<string>, oracle: TypeOracle)
    returns (configs: map<string, BlockConfig>)
    requires DistinctNames(params)
    ensures forall p :: p in params && IsConfigurable(p, builtin) ==>
      p.name in configs && configs[p.name] == ExtractBlockParam(p, oracle)
    ensures forall n :: n in configs ==>
      exists p :: p in params && p.name == n && IsConfigurable(p, builtin)
  {
    configs := map[];
    for i := 0 to |params|
      invariant forall j :: 0 <= j < i && IsConfigurable(params[j], builtin) ==>
        params[j].name in configs && configs[params[j].name] == ExtractBlockParam(params[j], oracle)
      invariant forall n :: n in configs ==>
        exists j :: 0 <= j < i && params[j].name == n && IsConfigurable(params[j], builtin)
    {
      var param := params[i];
      if !IsConfigurable(param, builtin) {
        continue;
      }
      configs := configs[param.name := ExtractBlockParam(param, oracle)];
    }
  }

  /** Registering a key twice fails the second time and keeps the first class retrievable. */
  method DuplicateRegistrationScenario(oracle: TypeOracle, first: BlockClass, second: BlockClass)
    modifies first, second
  {
    var registry := new BlockRegistry(oracle, []);
    assert FullName("internal", "foo") == "internal:foo";
    var r1 := registry.Register("foo", "internal", first, Some("Foo"));
    assert r1 == Pass;
    var r2 := registry.Register("foo", "internal", second, None);
    assert r2.Fail?;
    assert registry.Get("internal:foo") == Some(first);
    assert registry.GetLocalizedName("internal:foo") == "Foo";
    registry.Clear();
    assert registry.Get("internal:foo") == None;
    assert registry.GetLocalizedName("internal:foo") == "Foo";
  }
}
